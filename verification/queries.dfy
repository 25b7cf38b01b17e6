/**
 * The query tree the compiler emits, in place of the concrete Lucene and
 * Elasticsearch query classes (their scoring and execution are not modelled).
 */
module Queries {

  import opened Wrappers
  import opened Values

  /** A Lucene Term: field name and term bytes. */
  datatype Term = Term(field: string, bytes: Option<Bytes>)

  /**
   * One term added to a SynonymQuery builder: `boost` is `Some(b)` when it was
   * added with `addTerm(term, b)`, `None` when added with `addTerm(term)`.
   */
  datatype SynonymTerm = SynonymTerm(term: Term, boost: Option<Float32>)

  /** BooleanClause.Occur. */
  datatype Occur = Must | Filter | Should | MustNot

  datatype Clause = Clause(query: Query, occur: Occur)

  datatype Query =
    | TermQuery(term: Term)
    /** The terms in the order they were added to the builder. */
    | SynonymQuery(field: string, terms: seq<SynonymTerm>)
    | BooleanQuery(clauses: seq<Clause>)
    /** Queries.newMatchNoDocsQuery(reason). */
    | MatchNoDocs(reason: string)
    /** Queries.newMatchAllQuery(). */
    | MatchAllDocs
    /** The Java `null` query: the clause is to be omitted by whoever composes it. */
    | NullQuery
    /** Queries.newUnmappedFieldQuery(field). */
    | UnmappedField(field: string)
}

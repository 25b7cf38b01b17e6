/**
 * SynonymMatchQuery: compiles the position groups of an analysed query text
 * into a query tree, and falls back to the zero-terms policy when there are
 * no groups.
 */
module SynonymMatchQuery {

  import opened Wrappers
  import opened Values
  import opened Errors
  import opened TermTypes
  import opened Queries
  import opened ZeroTerms
  import opened Grouping

  /** SynonymMatchQuery.DEFAULT_SYNONYM_BOOST, 0.00001f. */
  const DefaultSynonymBoost: Float32 := Float32(0x3727_C5AC)

  /** The type label that marks a token as a synonym. */
  const SynonymType: string := "SYNONYM"

  /** newTermQuery: a term query on the unit's field and bytes. */
  function NewTermQuery(t: TermUnit): (q: Query)
    ensures q.TermQuery?
    ensures q.term.field == t.field && q.term.bytes == t.bytes
  {
    TermQuery(Term(t.field, t.bytes))
  }

  /** The builder loop of newSynonymQuery: adds the terms of `ts`, in order, after those already in `acc`. */
  function AddTerms(acc: seq<SynonymTerm>, ts: seq<TermUnit>, boost: Float32): (r: seq<SynonymTerm>)
    ensures |r| == |acc| + |ts|
    ensures r[..|acc|] == acc
    ensures forall j :: 0 <= j < |ts| ==>
              r[|acc| + j] == SynonymTerm(Term(ts[j].field, ts[j].bytes),
                                          if ts[j].ttype == SynonymType then Some(boost) else None)
    decreases |ts|
  {
    if |ts| == 0 then acc
    else
      var t := ts[0];
      var added := if t.ttype == SynonymType then SynonymTerm(Term(t.field, t.bytes), Some(boost))
                   else SynonymTerm(Term(t.field, t.bytes), None);
      var r := AddTerms(acc + [added], ts[1..], boost);
      assert r[|acc|] == (acc + [added])[|acc|];
      assert forall j :: 1 <= j < |ts| ==> ts[j] == ts[1..][j - 1] && r[|acc| + j] == r[|acc + [added]| + (j - 1)];
      r
  }

  /**
   * newSynonymQuery: a synonym query on the first unit's field holding every
   * unit's term in group order; a unit typed "SYNONYM" carries the synonym
   * boost, any other is added without a boost.
   */
  function NewSynonymQuery(ts: seq<TermUnit>, boost: Float32): (q: Query)
    requires |ts| > 0
    ensures q.SynonymQuery? && q.field == ts[0].field
    ensures |q.terms| == |ts|
    ensures forall j :: 0 <= j < |ts| ==> q.terms[j].term == Term(ts[j].field, ts[j].bytes)
    ensures forall j :: 0 <= j < |ts| ==> (q.terms[j].boost.Some? <==> ts[j].ttype == SynonymType)
    ensures forall j :: 0 <= j < |ts| ==> q.terms[j].boost.Some? ==> q.terms[j].boost.value == boost
  {
    var terms := AddTerms([], ts, boost);
    SynonymQuery(ts[0].field, terms)
  }

  /** The query one position group compiles to: a term query for one unit, a synonym query for several. */
  function PositionQuery(g: seq<TermUnit>, boost: Float32): (q: Query)
    requires |g| > 0
    ensures |g| == 1 <==> q.TermQuery?
    ensures |g| > 1 <==> q.SynonymQuery?
  {
    if |g| == 1 then NewTermQuery(g[0]) else NewSynonymQuery(g, boost)
  }

  /** The loop of newBooleanQuery: one SHOULD clause per group, after those already in `acc`. */
  function AddClauses(acc: seq<Clause>, gs: seq<seq<TermUnit>>, boost: Float32): (r: seq<Clause>)
    requires forall k :: 0 <= k < |gs| ==> |gs[k]| > 0
    ensures |r| == |acc| + |gs|
    ensures r[..|acc|] == acc
    ensures forall k :: 0 <= k < |gs| ==> r[|acc| + k] == Clause(PositionQuery(gs[k], boost), Should)
    decreases |gs|
  {
    if |gs| == 0 then acc
    else
      var g := gs[0];
      var clause := if |g| == 1 then Clause(NewTermQuery(g[0]), Should) else Clause(NewSynonymQuery(g, boost), Should);
      var r := AddClauses(acc + [clause], gs[1..], boost);
      assert r[|acc|] == (acc + [clause])[|acc|];
      assert forall k :: 1 <= k < |gs| ==> gs[k] == gs[1..][k - 1] && r[|acc| + k] == r[|acc + [clause]| + (k - 1)];
      r
  }

  /** newBooleanQuery: one SHOULD clause per group, in group order, each the group's own query. */
  function NewBooleanQuery(gs: seq<seq<TermUnit>>, boost: Float32): (q: Query)
    requires forall k :: 0 <= k < |gs| ==> |gs[k]| > 0
    ensures q.BooleanQuery? && |q.clauses| == |gs|
    ensures forall k :: 0 <= k < |gs| ==> q.clauses[k] == Clause(PositionQuery(gs[k], boost), Should)
  {
    var none: seq<Clause> := [];
    var clauses := AddClauses(none, gs, boost);
    assert forall k :: 0 <= k < |gs| ==> clauses[k] == clauses[|none| + k];
    BooleanQuery(clauses)
  }

  /**
   * analyzeList: a single group compiles on its own; several groups compile to a
   * boolean query whose clause k is what group k would compile to on its own.
   */
  function AnalyzeList(gs: seq<seq<TermUnit>>, boost: Float32): (q: Query)
    requires |gs| > 0
    requires forall k :: 0 <= k < |gs| ==> |gs[k]| > 0
    ensures |gs| == 1 ==> q == PositionQuery(gs[0], boost)
    ensures |gs| > 1 ==> q.BooleanQuery? && |q.clauses| == |gs|
    ensures |gs| > 1 ==> forall k :: 0 <= k < |gs| ==> q.clauses[k] == Clause(PositionQuery(gs[k], boost), Should)
  {
    if |gs| == 1 then
      var termTypes := gs[0];
      if |termTypes| == 1 then NewTermQuery(termTypes[0]) else NewSynonymQuery(termTypes, boost)
    else
      NewBooleanQuery(gs, boost)
  }

  /**
   * What the analyzer hands to createFieldQuery: either a stream without a
   * term-bytes attribute, or the tokens of the query text.
   */
  datatype Analysis = NoTermAttribute | Tokens(stream: seq<Token>)

  /**
   * createFieldQuery: groups the tokens by position and compiles the groups;
   * `None` (Java's null) when the stream has no term attribute or no tokens.
   */
  function CreateFieldQuery(field: string, analysis: Analysis, boost: Float32): (r: Option<Query>)
    ensures r.None? <==> analysis.NoTermAttribute? || |analysis.stream| == 0
  {
    match analysis
    case NoTermAttribute => None
    case Tokens(stream) =>
      var positionTerms := PositionTerms(field, stream);
      PositionTermsPartitionStream(field, stream);
      if |positionTerms| == 0 then None else Some(AnalyzeList(positionTerms, boost))
  }

  /** A stream of one token compiles to a term query on the field and that token's bytes. */
  lemma SingleTokenIsTermQuery(field: string, t: Token, boost: Float32)
    ensures CreateFieldQuery(field, Tokens([t]), boost) == Some(TermQuery(Term(field, Some(t.bytes))))
  {
    SinglePosition([t]);
    PositionTermsAreSnapshotGroups(field, [t]);
  }

  /**
   * Several tokens at one position compile to a synonym query on the field with
   * one term per token, in stream order; exactly the "SYNONYM"-typed ones carry
   * the synonym boost.
   */
  lemma SinglePositionIsSynonymQuery(field: string, stream: seq<Token>, boost: Float32)
    requires |stream| > 1
    requires forall i :: 0 < i < |stream| ==> stream[i].posInc == 0
    ensures var r := CreateFieldQuery(field, Tokens(stream), boost);
      && r.Some? && r.value.SynonymQuery? && r.value.field == field
      && |r.value.terms| == |stream|
      && (forall j :: 0 <= j < |stream| ==> r.value.terms[j].term == Term(field, Some(stream[j].bytes)))
      && (forall j :: 0 <= j < |stream| ==> (r.value.terms[j].boost.Some? <==> stream[j].ttype == SynonymType))
      && (forall j :: 0 <= j < |stream| ==> r.value.terms[j].boost.Some? ==> r.value.terms[j].boost.value == boost)
  {
    SinglePosition(stream);
    PositionTermsAreSnapshotGroups(field, stream);
    assert PositionTerms(field, stream) == [Snapshots(field, stream)];
  }

  /** The tokens of one position, compiled on their own, give that position's query. */
  lemma PositionCompilesAlone(field: string, g: seq<Token>, first: bool, boost: Float32)
    requires GroupOk(g, first)
    ensures CreateFieldQuery(field, Tokens(g), boost) == Some(PositionQuery(Snapshots(field, g), boost))
  {
    var units := Snapshots(field, g);
    assert PositionTerms(field, g) == [units] by {
      assert forall i :: 0 < i < |g| ==> g[i].posInc == 0;
      SinglePosition(g);
      PositionTermsAreSnapshotGroups(field, g);
      SnapshotGroupsSingle(field, g);
    }
    assert AnalyzeList([units], boost) == PositionQuery(units, boost);
  }

  /**
   * Tokens spanning several positions compile to a boolean query with one SHOULD
   * clause per position, in order, and clause k is what the tokens of position k
   * compile to on their own.
   */
  lemma SeveralPositionsIsBooleanQuery(field: string, stream: seq<Token>, boost: Float32)
    requires exists i :: 0 < i < |stream| && stream[i].posInc != 0
    ensures var r := CreateFieldQuery(field, Tokens(stream), boost);
      && r.Some? && r.value.BooleanQuery?
      && |r.value.clauses| == |Group(stream)| == 1 + Breaks(stream)
      && forall k :: 0 <= k < |Group(stream)| ==>
           && r.value.clauses[k].occur == Should
           && Some(r.value.clauses[k].query) == CreateFieldQuery(field, Tokens(Group(stream)[k]), boost)
  {
    var gs := Group(stream);
    SinglePosition(stream);
    GroupCount(stream);
    PositionTermsAreSnapshotGroups(field, stream);
    var pt := PositionTerms(field, stream);
    assert |pt| == |gs| > 1;
    var q := AnalyzeList(pt, boost);
    assert CreateFieldQuery(field, Tokens(stream), boost) == Some(q);
    forall k | 0 <= k < |gs|
      ensures q.clauses[k].occur == Should
      ensures Some(q.clauses[k].query) == CreateFieldQuery(field, Tokens(gs[k]), boost)
    {
      assert GroupOk(gs[k], k == 0);
      PositionCompilesAlone(field, gs[k], k == 0, boost);
      assert pt[k] == Snapshots(field, gs[k]);
      assert q.clauses[k] == Clause(PositionQuery(pt[k], boost), Should);
    }
  }

  /**
   * "fast car", where the analyzer adds "automobile" as a synonym of "car" at
   * the same position: a boolean query of a term query for "fast" and a
   * synonym query in which only "automobile" carries the synonym boost.
   */
  lemma FastCarAutomobile(field: string, fast: Bytes, car: Bytes, automobile: Bytes, boost: Float32)
    ensures CreateFieldQuery(field, Tokens([Token(1, "word", fast), Token(1, "word", car),
                                            Token(0, SynonymType, automobile)]), boost)
         == Some(BooleanQuery([
              Clause(TermQuery(Term(field, Some(fast))), Should),
              Clause(SynonymQuery(field, [SynonymTerm(Term(field, Some(car)), None),
                                          SynonymTerm(Term(field, Some(automobile)), Some(boost))]), Should)]))
  {
    var toks := [Token(1, "word", fast), Token(1, "word", car), Token(0, SynonymType, automobile)];
    var u0 := Snapshot(field, toks[0]);
    var u1 := Snapshot(field, toks[1]);
    var u2 := Snapshot(field, toks[2]);
    var gs := [[u0], [u1, u2]];
    assert PositionTerms(field, toks) == gs by {
      var none: seq<TermUnit> := [];
      assert none + [u0] == [u0] && none + [u1] == [u1];
      assert toks[..1][..0] == [] && toks[..1][0] == toks[0];
      assert Fold(field, toks[..1]) == Accept(Accumulator([], None), 1, u0) == Accumulator([], Some([u0]));
      assert toks[..2][..1] == toks[..1] && toks[..2][1] == toks[1];
      assert Fold(field, toks[..2]) == Accept(Accumulator([], Some([u0])), 1, u1) == Accumulator([[u0]], Some([u1]));
      assert toks[..2] == toks[..|toks| - 1] && [u1] + [u2] == [u1, u2];
      assert Fold(field, toks) == Accept(Accumulator([[u0]], Some([u1])), 0, u2) == Accumulator([[u0]], Some([u1, u2]));
    }
    var syn := SynonymQuery(field, [SynonymTerm(Term(field, Some(car)), None),
                                    SynonymTerm(Term(field, Some(automobile)), Some(boost))]);
    assert PositionQuery([u1, u2], boost) == syn by {
      var p := PositionQuery([u1, u2], boost);
      assert p.terms[0] == SynonymTerm(Term(field, Some(car)), None);
      assert p.terms[1] == SynonymTerm(Term(field, Some(automobile)), Some(boost));
      assert p.terms == [p.terms[0], p.terms[1]];
    }
    assert CreateFieldQuery(field, Tokens(toks), boost) == Some(AnalyzeList(gs, boost));
    var q := AnalyzeList(gs, boost);
    assert q.clauses == [Clause(TermQuery(Term(field, Some(fast))), Should), Clause(syn, Should)] by {
      assert q.clauses[0] == Clause(PositionQuery([u0], boost), Should);
      assert q.clauses[1] == Clause(PositionQuery([u1, u2], boost), Should);
    }
  }


  /** The configuration of a SynonymMatchQuery: analyzer name (null when unset), synonym boost, zero-terms policy. */
  datatype Settings = Settings(analyzer: Option<string>, synonymBoost: Float32, zeroTerms: ZeroTermsQuery)

  /** A field's mapping: only the search analyzer it names matters here. */
  datatype FieldType = FieldType(searchAnalyzer: string)

  /**
   * The shard context: the mapped fields, the registered analyzer names, and the
   * analysis itself, `analyze(analyzer, field, value)`, standing for the token
   * stream of `value.toString()` under that analyzer. Analysis is foreign code.
   */
  datatype ShardContext = ShardContext(
    fields: map<string, FieldType>,
    analyzers: set<string>,
    analyze: (string, string, Value) -> Analysis)

  /** parseInternal: the compiled query, or the zero-terms query when createFieldQuery gives null. */
  function ParseInternal(ctx: ShardContext, s: Settings, analyzer: string, field: string, value: Value): (q: Query)
    ensures var a := ctx.analyze(analyzer, field, value);
      (a.NoTermAttribute? || |a.stream| == 0) ==> q == ZeroTermsResult(s.zeroTerms)
    ensures var a := ctx.analyze(analyzer, field, value);
      (a.Tokens? && |a.stream| > 0) ==> (q.TermQuery? || q.SynonymQuery? || q.BooleanQuery?)
  {
    match CreateFieldQuery(field, ctx.analyze(analyzer, field, value), s.synonymBoost)
    case None => ZeroTermsResult(s.zeroTerms)
    case Some(q) => q
  }

  /**
   * parse, as written: an unmapped field short-circuits to the unmapped-field
   * query; otherwise parseInternal analyses with the analyzer field of the
   * SynonymMatchQuery, which is null unless an analyzer was set explicitly,
   * whatever getAnalyzer computed into its local variable.
   */
  function ParseAsWritten(ctx: ShardContext, s: Settings, field: string, value: Value): (r: Result<Query, Error>)
    ensures field !in ctx.fields ==> r == Success(UnmappedField(field))
    ensures field in ctx.fields && s.analyzer.None? ==> r == Failure(NullAnalyzer)
    ensures field in ctx.fields && s.analyzer.Some? ==>
              r == Success(ParseInternal(ctx, s, s.analyzer.value, field, value))
  {
    if field !in ctx.fields then Success(UnmappedField(field))
    else
      var local := GetAnalyzer(s, ctx.fields[field]);
      if s.analyzer.None? then Failure(NullAnalyzer)
      else Success(ParseInternal(ctx, s, s.analyzer.value, field, value))
  }

  /** getAnalyzer: the explicit analyzer if set, else the field's search analyzer. */
  function GetAnalyzer(s: Settings, ft: FieldType): (a: string)
    ensures s.analyzer.Some? ==> a == s.analyzer.value
    ensures s.analyzer.None? ==> a == ft.searchAnalyzer
  {
    s.analyzer.GetOr(ft.searchAnalyzer)
  }

  /**
   * The as-written parse fails on every mapped field when no analyzer was set
   * explicitly, although the field's search analyzer is at hand.
   */
  lemma ParseAsWrittenIgnoresSearchAnalyzer(ctx: ShardContext, s: Settings, field: string, value: Value)
    requires field in ctx.fields && s.analyzer.None?
    ensures ParseAsWritten(ctx, s, field, value) == Failure(NullAnalyzer)
    ensures Parse(ctx, s, field, value)
         == Success(ParseInternal(ctx, s, ctx.fields[field].searchAnalyzer, field, value))
  {
  }

  /**
   * parse, as evidently intended: the query text is analysed with the analyzer
   * getAnalyzer chose. It never fails, and it agrees with the as-written parse
   * whenever that one does not fail.
   */
  function Parse(ctx: ShardContext, s: Settings, field: string, value: Value): (r: Result<Query, Error>)
    ensures r.Success?
    ensures ParseAsWritten(ctx, s, field, value).Success? ==> r == ParseAsWritten(ctx, s, field, value)
    ensures field !in ctx.fields ==> r.value == UnmappedField(field)
    ensures field in ctx.fields ==>
              r.value == ParseInternal(ctx, s, GetAnalyzer(s, ctx.fields[field]), field, value)
  {
    if field !in ctx.fields then Success(UnmappedField(field))
    else Success(ParseInternal(ctx, s, GetAnalyzer(s, ctx.fields[field]), field, value))
  }

  /** An unmapped field yields the unmapped-field query whatever the analysis would have produced. */
  lemma UnmappedFieldSkipsAnalysis(ctx: ShardContext, s: Settings, field: string, value: Value,
                                   analyze: (string, string, Value) -> Analysis)
    requires field !in ctx.fields
    ensures Parse(ctx, s, field, value) == Parse(ctx.(analyze := analyze), s, field, value)
                                        == Success(UnmappedField(field))
  {
  }
}

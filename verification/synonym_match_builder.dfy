/**
 * SynonymMatchBuilder: the query's parameters (field, value, analyzer,
 * zero-terms policy, synonym boost), their validation, their equality, their
 * binary stream form, and the step that turns them into a query on a shard.
 */
module SynonymMatchBuilder {

  import opened Wrappers
  import opened Values
  import opened Errors
  import opened Queries
  import opened ZeroTerms
  import opened Wire
  import opened SynonymMatchQuery

  /** The query's registered name. */
  const Name: string := "synonym_match"

  /**
   * The fields kept by AbstractQueryBuilder that fromXContent also sets: the
   * query's own boost and its name. They are carried along, not interpreted.
   */
  datatype BaseFields = BaseFields(boost: Float32, queryName: Option<string>)

  const DefaultBase: BaseFields := BaseFields(DefaultBoost, None)

  datatype Builder = Builder(
    fieldName: string,
    value: Value,
    analyzer: Option<string>,
    zeroTerms: ZeroTermsQuery,
    synonymBoost: Float32,
    base: BaseFields)

  /**
   * The constructor: rejects a null field name, then a null value; otherwise
   * stores both exactly as given (an empty name is accepted) with every other
   * parameter at its default.
   */
  function New(fieldName: Option<string>, value: Option<Value>): (r: Result<Builder, Error>)
    ensures r.Success? <==> fieldName.Some? && value.Some?
    ensures fieldName.None? ==> r == Failure(MissingFieldName)
    ensures fieldName.Some? && value.None? ==> r == Failure(MissingValue)
    ensures r.Success? ==> r.value.fieldName == fieldName.value && r.value.value == value.value
    ensures r.Success? ==> r.value.analyzer == None && r.value.zeroTerms == DefaultZeroTermsQuery
                           && r.value.synonymBoost == DefaultSynonymBoost && r.value.base == DefaultBase
  {
    if fieldName.None? then Failure(MissingFieldName)
    else if value.None? then Failure(MissingValue)
    else Success(Builder(fieldName.value, value.value, None, DefaultZeroTermsQuery, DefaultSynonymBoost, DefaultBase))
  }

  /** zeroTermsQuery(..): rejects null; otherwise changes that parameter only. */
  function WithZeroTerms(b: Builder, z: Option<ZeroTermsQuery>): (r: Result<Builder, Error>)
    ensures z.None? <==> r == Failure(NullZeroTermsQuery)
    ensures z.Some? ==> r.Success? && r.value.zeroTerms == z.value
    ensures z.Some? ==> r.value.(zeroTerms := b.zeroTerms) == b
  {
    if z.None? then Failure(NullZeroTermsQuery) else Success(b.(zeroTerms := z.value))
  }

  /** analyzer(..): sets the analyzer name, null included; nothing else changes. */
  function WithAnalyzer(b: Builder, analyzer: Option<string>): (r: Builder)
    ensures r.analyzer == analyzer && r.(analyzer := b.analyzer) == b
  {
    b.(analyzer := analyzer)
  }

  /** synonym_type_boost(..): sets the synonym boost; nothing else changes. */
  function WithSynonymBoost(b: Builder, boost: Float32): (r: Builder)
    ensures r.synonymBoost == boost && r.(synonymBoost := b.synonymBoost) == b
  {
    b.(synonymBoost := boost)
  }

  /** doEquals: the five parameters of this query agree; the base fields are compared elsewhere. */
  predicate DoEquals(a: Builder, b: Builder): (r: bool)
    ensures r <==> a.(base := b.base) == b
  {
    && a.fieldName == b.fieldName
    && a.value == b.value
    && a.analyzer == b.analyzer
    && a.zeroTerms == b.zeroTerms
    && a.synonymBoost == b.synonymBoost
  }

  /** doEquals holds exactly when the builders differ at most in their base fields. */
  lemma DoEqualsIffSameExceptBase(a: Builder, b: Builder)
    ensures DoEquals(a, b) <==> a.(base := b.base) == b
    ensures DoEquals(a, b) && a.base == b.base <==> a == b
  {
  }

  /** doWriteTo: name, value, zero-terms ordinal, optional analyzer, synonym boost, in that order. */
  function DoWriteTo(b: Builder): (items: seq<Item>)
    ensures |items| == 5
    ensures items[0] == StringItem(b.fieldName) && items[1] == GenericItem(b.value)
    ensures items[2] == VIntItem(Ordinal(b.zeroTerms))
    ensures items[3] == OptionalStringItem(b.analyzer) && items[4] == FloatItem(b.synonymBoost)
  {
    [StringItem(b.fieldName), GenericItem(b.value)] + WriteTo(b.zeroTerms)
    + [OptionalStringItem(b.analyzer), FloatItem(b.synonymBoost)]
  }

  /**
   * The stream constructor: reads the fields back in the order doWriteTo wrote
   * them. `base` is what the AbstractQueryBuilder part of the stream held.
   */
  function ReadFrom(base: BaseFields, items: seq<Item>): (r: Result<(Builder, seq<Item>), Error>)
    ensures r.Success? ==> r.value.0.base == base && items == DoWriteTo(r.value.0) + r.value.1
  {
    var (fieldName, rest1) :- ReadString(items);
    var (value, rest2) :- ReadGenericValue(rest1);
    var (zeroTerms, rest3) :- ReadFromStream(rest2);
    var (analyzer, rest4) :- ReadOptionalString(rest3);
    var (synonymBoost, rest5) :- ReadFloat(rest4);
    Success((Builder(fieldName, value, analyzer, zeroTerms, synonymBoost, base), rest5))
  }

  /**
   * Reading back what doWriteTo wrote gives a builder equal under doEquals, for
   * every analyzer (present or absent) and every zero-terms policy, and leaves
   * whatever followed on the stream.
   */
  lemma WireRoundTrip(b: Builder, base: BaseFields, rest: seq<Item>)
    ensures ReadFrom(base, DoWriteTo(b) + rest).Success?
    ensures DoEquals(ReadFrom(base, DoWriteTo(b) + rest).value.0, b)
    ensures ReadFrom(b.base, DoWriteTo(b) + rest) == Success((b, rest))
  {
    var items := DoWriteTo(b) + rest;
    assert items[1..][1..] == WriteTo(b.zeroTerms) + items[3..];
    StreamRoundTrip(b.zeroTerms, items[3..]);
    assert items[3..][1..][1..] == rest;
  }

  /** A zero-terms ordinal other than 0, 1 or 2 makes the read fail with that ordinal. */
  lemma UnknownOrdinalRejected(base: BaseFields, name: string, value: Value, ord: int, rest: seq<Item>)
    requires !(0 <= ord < 3)
    ensures ReadFrom(base, [StringItem(name), GenericItem(value), VIntItem(ord)] + rest)
         == Failure(UnknownSerializedType(ord))
  {
    var items := [StringItem(name), GenericItem(value), VIntItem(ord)] + rest;
    assert items[1..][1..] == [VIntItem(ord)] + rest;
  }

  /** The parameters the builder hands to the SynonymMatchQuery it creates. */
  function SettingsOf(b: Builder): Settings
  {
    Settings(b.analyzer, b.synonymBoost, b.zeroTerms)
  }

  /**
   * doToQuery: an explicitly named analyzer that the shard does not have is an
   * error, raised before the query text is looked at; otherwise the query is
   * parsed on the shard as the source does it, so that a mapped field without
   * an explicit analyzer fails for want of one. Whenever it succeeds it agrees
   * with the corrected parse.
   */
  function DoToQuery(ctx: ShardContext, b: Builder): (r: Result<Query, Error>)
    ensures b.analyzer.Some? && b.analyzer.value !in ctx.analyzers ==> r == Failure(AnalyzerNotFound(b.analyzer.value))
    ensures b.analyzer.None? && b.fieldName in ctx.fields ==> r == Failure(NullAnalyzer)
    ensures r.Success? <==> if b.analyzer.Some? then b.analyzer.value in ctx.analyzers else b.fieldName !in ctx.fields
    ensures r.Success? ==> r == Parse(ctx, SettingsOf(b), b.fieldName, b.value)
  {
    if b.analyzer.Some? && b.analyzer.value !in ctx.analyzers then Failure(AnalyzerNotFound(b.analyzer.value))
    else ParseAsWritten(ctx, SettingsOf(b), b.fieldName, b.value)
  }

  /**
   * The analyzer check comes first: with a missing analyzer the outcome is the
   * same error whatever the field mappings and whatever the analysis would give.
   */
  lemma MissingAnalyzerPrecedesParsing(ctx: ShardContext, b: Builder, fields: map<string, FieldType>,
                                       analyze: (string, string, Value) -> Analysis)
    requires b.analyzer.Some? && b.analyzer.value !in ctx.analyzers
    ensures DoToQuery(ctx.(fields := fields, analyze := analyze), b) == Failure(AnalyzerNotFound(b.analyzer.value))
  {
  }

  /**
   * An analysis that yields no terms falls back to the zero-terms policy, whatever
   * the synonym boost: NONE matches nothing, ALL matches everything, NULL is the
   * null query.
   */
  lemma NoTermsFallBack(ctx: ShardContext, b: Builder)
    requires b.analyzer.Some? && b.analyzer.value in ctx.analyzers
    requires b.fieldName in ctx.fields
    requires var a := ctx.analyze(b.analyzer.value, b.fieldName, b.value);
             a.NoTermAttribute? || |a.stream| == 0
    ensures b.zeroTerms == NONE ==> DoToQuery(ctx, b).Success? && DoToQuery(ctx, b).value.MatchNoDocs?
    ensures b.zeroTerms == ALL ==> DoToQuery(ctx, b) == Success(MatchAllDocs)
    ensures b.zeroTerms == NULL ==> DoToQuery(ctx, b) == Success(NullQuery)
  {
  }
}

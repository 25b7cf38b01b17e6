/**
 * The textual (JSON) form of the query: SynonymMatchBuilder.fromXContent, which
 * reads the body of a `synonym_match` object token by token, and doXContent,
 * which writes it.
 *
 * The parser is modelled over the token sequence the JSON lexer produces, from
 * the token after the `synonym_match` object's START_OBJECT onwards.
 */
module XContent {

  import opened Wrappers
  import opened Values
  import opened Errors
  import opened ZeroTerms
  import opened SynonymMatchQuery
  import opened SynonymMatchBuilder

  datatype XToken =
    | FieldName(name: string)
    | StartObject
    | EndObject
    | StartArray
    | EndArray
    | StringValue(s: string)
    | NumberValue(text: string)
    | BoolValue(b: bool)
    | NullValue

  /** Token.isValue(): strings, numbers and booleans; a JSON null is not a value. */
  predicate IsValue(t: XToken)
  {
    t.StringValue? || t.NumberValue? || t.BoolValue?
  }

  /** parser.text() on a value token. */
  function Text(t: XToken): string
    requires IsValue(t)
  {
    match t
    case StringValue(s) => s
    case NumberValue(s) => s
    case BoolValue(b) => if b then "true" else "false"
  }

  /** parser.objectText(): the value a token denotes, null for a JSON null, an error for structure. */
  function ObjectText(t: XToken): (r: Result<Option<Value>, Error>)
    ensures r.Success? <==> IsValue(t) || t.NullValue?
    ensures r.Success? ==> (r.value.None? <==> t.NullValue?)
  {
    match t
    case StringValue(s) => Success(Some(Str(s)))
    case NumberValue(s) => Success(Some(Num(s)))
    case BoolValue(b) => Success(Some(Bool(b)))
    case NullValue => Success(None)
    case _ => Failure(NotAValue)
  }

  /**
   * parser.floatValue(): a number is read from its text and, since numeric
   * strings are coerced, so is a string; a boolean has no float.
   * `parseFloat` is the lexer's decimal-to-float conversion.
   */
  function FloatValue(t: XToken, parseFloat: string -> Option<Float32>): (r: Result<Float32, Error>)
    requires IsValue(t)
    ensures t.BoolValue? ==> r == Failure(NotAValue)
    ensures !t.BoolValue? ==> (r.Success? <==> parseFloat(Text(t)).Some?)
    ensures r.Success? ==> Some(r.value) == parseFloat(Text(t))
  {
    if t.BoolValue? then Failure(NotAValue)
    else match parseFloat(Text(t))
      case None => Failure(NotANumber(Text(t)))
      case Some(f) => Success(f)
  }

  /** The ASCII case fold String.equalsIgnoreCase applies to the letters of "none" and "all". */
  function Lower(c: char): char
  {
    if 'A' <= c <= 'Z' then (c as int + 32) as char else c
  }

  predicate EqualsIgnoreCase(a: string, b: string)
  {
    |a| == |b| && forall i :: 0 <= i < |a| ==> Lower(a[i]) == Lower(b[i])
  }

  /** The zero_terms_query literal: "none" or "all" in any letter case; nothing else, not even "null". */
  function ParseZeroTerms(literal: string): (r: Result<ZeroTermsQuery, Error>)
    ensures r == Success(NONE) <==> EqualsIgnoreCase(literal, "none")
    ensures r == Success(ALL) <==> EqualsIgnoreCase(literal, "all")
    ensures r.Failure? <==> !EqualsIgnoreCase(literal, "none") && !EqualsIgnoreCase(literal, "all")
    ensures r.Failure? ==> r.error == UnsupportedZeroTerms(literal)
    ensures r != Success(NULL)
  {
    if EqualsIgnoreCase(literal, "none") then Success(NONE)
    else if EqualsIgnoreCase(literal, "all") then Success(ALL)
    else Failure(UnsupportedZeroTerms(literal))
  }

  /** The keys of the field object. */
  const QueryKey: string := "query"
  const AnalyzerKey: string := "synonym_analyzer"
  const BoostKey: string := "boost"
  const SynonymBoostKey: string := "synonym_type_boost"
  const ZeroTermsKey: string := "zero_terms_query"
  const NameKey: string := "_name"

  predicate KnownKey(key: string)
  {
    key == QueryKey || key == AnalyzerKey || key == BoostKey || key == SynonymBoostKey
    || key == ZeroTermsKey || key == NameKey
  }

  /**
   * The local variables of fromXContent. `current` is currentFieldName;
   * `outerName` is what parser.currentName() answers at the level of the
   * `synonym_match` object, the last key read there.
   */
  datatype State = State(
    fieldName: Option<string>,
    value: Option<Value>,
    boost: Float32,
    synonymBoost: Float32,
    analyzer: Option<string>,
    zeroTerms: ZeroTermsQuery,
    queryName: Option<string>,
    current: Option<string>,
    outerName: Option<string>)

  const Initial: State :=
    State(None, None, DefaultBoost, DefaultSynonymBoost, None, DefaultZeroTermsQuery, None, None, None)

  /**
   * One value inside the field object, stored according to the current key:
   * a null key cannot be matched, an unknown key is rejected.
   */
  function ApplyKey(st: State, t: XToken, parseFloat: string -> Option<Float32>): (r: Result<State, Error>)
    requires IsValue(t)
    ensures st.current.None? ==> r == Failure(NullKey)
    ensures st.current.Some? && !KnownKey(st.current.value) ==> r == Failure(UnsupportedKey(st.current.value))
    ensures r.Success? ==> st.current.Some? && KnownKey(st.current.value)
    ensures r.Success? ==> r.value.zeroTerms == st.zeroTerms || r.value.zeroTerms != NULL
    ensures r.Success? ==> r.value.(value := st.value, analyzer := st.analyzer, boost := st.boost,
                                    synonymBoost := st.synonymBoost, zeroTerms := st.zeroTerms,
                                    queryName := st.queryName) == st
    // every parameter but the current key's keeps its value
    ensures r.Success? && st.current != Some(QueryKey) ==> r.value.value == st.value
    ensures r.Success? && st.current != Some(AnalyzerKey) ==> r.value.analyzer == st.analyzer
    ensures r.Success? && st.current != Some(BoostKey) ==> r.value.boost == st.boost
    ensures r.Success? && st.current != Some(SynonymBoostKey) ==> r.value.synonymBoost == st.synonymBoost
    ensures r.Success? && st.current != Some(ZeroTermsKey) ==> r.value.zeroTerms == st.zeroTerms
    ensures r.Success? && st.current != Some(NameKey) ==> r.value.queryName == st.queryName
    // what each key stores
    ensures st.current == Some(QueryKey) ==> r.Success? && ObjectText(t) == Success(r.value.value)
    ensures st.current == Some(AnalyzerKey) ==> r.Success? && r.value.analyzer == Some(Text(t))
    ensures st.current == Some(NameKey) ==> r.Success? && r.value.queryName == Some(Text(t))
    ensures st.current == Some(BoostKey) ==>
              (r.Success? <==> FloatValue(t, parseFloat).Success?)
              && (r.Success? ==> r.value.boost == FloatValue(t, parseFloat).value)
              && (r.Failure? ==> r.error == FloatValue(t, parseFloat).error)
    ensures st.current == Some(SynonymBoostKey) ==>
              (r.Success? <==> FloatValue(t, parseFloat).Success?)
              && (r.Success? ==> r.value.synonymBoost == FloatValue(t, parseFloat).value)
              && (r.Failure? ==> r.error == FloatValue(t, parseFloat).error)
    ensures st.current == Some(ZeroTermsKey) ==>
              (r.Success? <==> ParseZeroTerms(Text(t)).Success?)
              && (r.Success? ==> r.value.zeroTerms == ParseZeroTerms(Text(t)).value)
              && (r.Failure? ==> r.error == UnsupportedZeroTerms(Text(t)))
  {
    if st.current.None? then Failure(NullKey)
    else
      var key := st.current.value;
      if key == QueryKey then
        Success(st.(value := ObjectText(t).value))
      else if key == AnalyzerKey then
        Success(st.(analyzer := Some(Text(t))))
      else if key == BoostKey then
        var f :- FloatValue(t, parseFloat);
        Success(st.(boost := f))
      else if key == SynonymBoostKey then
        var f :- FloatValue(t, parseFloat);
        Success(st.(synonymBoost := f))
      else if key == ZeroTermsKey then
        var z :- ParseZeroTerms(Text(t));
        Success(st.(zeroTerms := z))
      else if key == NameKey then
        Success(st.(queryName := Some(Text(t))))
      else
        Failure(UnsupportedKey(key))
  }

  /** A token read where the field object expects a value: a value is stored, anything else is rejected. */
  function Step(st: State, t: XToken, parseFloat: string -> Option<Float32>): (r: Result<State, Error>)
  {
    if IsValue(t) then ApplyKey(st, t, parseFloat) else Failure(UnknownToken(st.current))
  }

  /** `after` is what follows the END_OBJECT that closes some prefix of `toks`. */
  predicate ClosedBy(toks: seq<XToken>, after: seq<XToken>)
  {
    |after| < |toks| && toks[|toks| - |after| - 1] == EndObject && after == toks[|toks| - |after|..]
  }

  /**
   * The inner loop: reads the field object up to its END_OBJECT and returns the
   * tokens after it.
   */
  function ParseFieldObject(toks: seq<XToken>, st: State, parseFloat: string -> Option<Float32>)
    : (r: Result<(State, seq<XToken>), Error>)
    ensures r.Success? ==> |r.value.1| < |toks|
    ensures r.Success? ==> ClosedBy(toks, r.value.1)
    ensures r.Success? && st.zeroTerms != NULL ==> r.value.0.zeroTerms != NULL
    ensures r.Success? ==> r.value.0.fieldName == st.fieldName && r.value.0.outerName == st.outerName
    decreases |toks|
  {
    if |toks| == 0 then Failure(UnexpectedEnd)
    else if toks[0].EndObject? then Success((st, toks[1..]))
    else if toks[0].FieldName? then ParseFieldObject(toks[1..], st.(current := Some(toks[0].name)), parseFloat)
    else if !IsValue(toks[0]) then Failure(UnknownToken(st.current))
    else
      var st' :- ApplyKey(st, toks[0], parseFloat);
      ParseFieldObject(toks[1..], st', parseFloat)
  }

  /**
   * The outer loop: a key, a field object (the long form) or a bare value (the
   * short form), up to the END_OBJECT of the `synonym_match` object. A second
   * field, in either form, is rejected.
   */
  function ParseQueryObject(toks: seq<XToken>, st: State, parseFloat: string -> Option<Float32>)
    : (r: Result<State, Error>)
    ensures r.Success? && st.zeroTerms != NULL ==> r.value.zeroTerms != NULL
    decreases |toks|
  {
    if |toks| == 0 then Failure(UnexpectedEnd)
    else if toks[0].EndObject? then Success(st)
    else if toks[0].FieldName? then
      var n := toks[0].name;
      ParseQueryObject(toks[1..], st.(current := Some(n), outerName := Some(n)), parseFloat)
    else if toks[0].StartObject? then
      if st.fieldName.Some? then Failure(MultipleFields(st.fieldName.value, st.current))
      else
        var (st', rest) :- ParseFieldObject(toks[1..], st.(fieldName := st.current), parseFloat);
        ParseQueryObject(rest, st', parseFloat)
    else if st.fieldName.Some? then Failure(MultipleFields(st.fieldName.value, st.outerName))
    else if !(IsValue(toks[0]) || toks[0].NullValue?) then Failure(NotAValue)
    else ParseQueryObject(toks[1..], st.(fieldName := st.outerName, value := ObjectText(toks[0]).value), parseFloat)
  }

  /** The builder fromXContent assembles once the object is read: no query text is an error. */
  function Build(st: State): (r: Result<Builder, Error>)
    ensures st.value.None? ==> r == Failure(NoText)
    ensures st.value.Some? && st.fieldName.None? ==> r == Failure(MissingFieldName)
    ensures r.Success? <==> st.value.Some? && st.fieldName.Some?
    ensures r.Success? ==> r.value == Builder(st.fieldName.value, st.value.value, st.analyzer, st.zeroTerms,
                                              st.synonymBoost, BaseFields(st.boost, st.queryName))
  {
    if st.value.None? then Failure(NoText)
    else
      var b0 :- New(st.fieldName, st.value);
      var b1 := WithAnalyzer(b0, st.analyzer);
      // a non-null policy is always accepted
      var b2 := WithZeroTerms(b1, Some(st.zeroTerms)).value;
      Success(WithSynonymBoost(b2.(base := BaseFields(st.boost, st.queryName)), st.synonymBoost))
  }

  /** fromXContent. The textual form can never select the NULL zero-terms policy. */
  function FromXContent(toks: seq<XToken>, parseFloat: string -> Option<Float32>): (r: Result<Builder, Error>)
    ensures r.Success? ==> r.value.zeroTerms != NULL
  {
    var st :- ParseQueryObject(toks, Initial, parseFloat);
    Build(st)
  }

  // ---------------------------------------------------------------------------
  // The field object as a list of key/value pairs
  // ---------------------------------------------------------------------------

  /** The tokens of `"k1": v1, "k2": v2, ...`. */
  function Pairs(kvs: seq<(string, XToken)>): (toks: seq<XToken>)
    ensures |toks| == 2 * |kvs|
    ensures forall i :: 0 <= i < |kvs| ==> toks[2 * i] == FieldName(kvs[i].0) && toks[2 * i + 1] == kvs[i].1
  {
    if |kvs| == 0 then [] else [FieldName(kvs[0].0), kvs[0].1] + Pairs(kvs[1..])
  }

  /** A token that, read where a value is expected, is handled as a value or rejected, never as structure. */
  predicate NotStructure(t: XToken)
  {
    !t.FieldName? && !t.EndObject?
  }

  /** Every value among the pairs is handled as a value or rejected. */
  predicate AllPlain(kvs: seq<(string, XToken)>)
  {
    forall i :: 0 <= i < |kvs| ==> NotStructure(kvs[i].1)
  }

  /** The pairs applied one after the other, as the inner loop applies them. */
  function ApplyPairs(st: State, kvs: seq<(string, XToken)>, parseFloat: string -> Option<Float32>)
    : Result<State, Error>
    decreases |kvs|
  {
    if |kvs| == 0 then Success(st)
    else
      var st' :- Step(st.(current := Some(kvs[0].0)), kvs[0].1, parseFloat);
      ApplyPairs(st', kvs[1..], parseFloat)
  }

  /** Reading a run of pairs is applying them in order; what follows is read from the resulting state. */
  lemma {:induction false} ParsePairs(kvs: seq<(string, XToken)>, tail: seq<XToken>, st: State,
                                      parseFloat: string -> Option<Float32>)
    requires AllPlain(kvs)
    ensures ParseFieldObject(Pairs(kvs) + tail, st, parseFloat)
         == match ApplyPairs(st, kvs, parseFloat)
            case Failure(e) => Failure(e)
            case Success(st') => ParseFieldObject(tail, st', parseFloat)
    decreases |kvs|
  {
    if |kvs| == 0 {
      assert Pairs(kvs) + tail == tail;
    } else {
      var toks := Pairs(kvs) + tail;
      assert toks[0] == FieldName(kvs[0].0);
      assert toks[1..][0] == kvs[0].1;
      assert toks[1..][1..] == Pairs(kvs[1..]) + tail;
      assert NotStructure(kvs[0].1);
      var st1 := st.(current := Some(kvs[0].0));
      match Step(st1, kvs[0].1, parseFloat)
      case Failure(e) =>
      case Success(st') =>
        assert AllPlain(kvs[1..]) by {
          forall i | 0 <= i < |kvs[1..]| ensures NotStructure(kvs[1..][i].1) {
            assert kvs[1..][i] == kvs[i + 1];
          }
        }
        ParsePairs(kvs[1..], tail, st', parseFloat);
    }
  }

  predicate HasKey(kvs: seq<(string, XToken)>, key: string)
  {
    exists i :: 0 <= i < |kvs| && kvs[i].0 == key
  }

  /** A parameter whose key does not occur among the pairs keeps the value it had. */
  lemma {:induction false} AbsentKeyKeepsValue(st: State, kvs: seq<(string, XToken)>,
                                               parseFloat: string -> Option<Float32>)
    requires ApplyPairs(st, kvs, parseFloat).Success?
    ensures var st' := ApplyPairs(st, kvs, parseFloat).value;
            && (!HasKey(kvs, QueryKey) ==> st'.value == st.value)
            && (!HasKey(kvs, AnalyzerKey) ==> st'.analyzer == st.analyzer)
            && (!HasKey(kvs, BoostKey) ==> st'.boost == st.boost)
            && (!HasKey(kvs, SynonymBoostKey) ==> st'.synonymBoost == st.synonymBoost)
            && (!HasKey(kvs, ZeroTermsKey) ==> st'.zeroTerms == st.zeroTerms)
            && (!HasKey(kvs, NameKey) ==> st'.queryName == st.queryName)
            && st'.fieldName == st.fieldName && st'.outerName == st.outerName
    decreases |kvs|
  {
    if |kvs| > 0 {
      var st1 := st.(current := Some(kvs[0].0));
      var st2 := Step(st1, kvs[0].1, parseFloat).value;
      AbsentKeyKeepsValue(st2, kvs[1..], parseFloat);
      forall key | !HasKey(kvs, key)
        ensures !HasKey(kvs[1..], key) && kvs[0].0 != key
      {
        assert forall i :: 0 <= i < |kvs[1..]| ==> kvs[1..][i] == kvs[i + 1];
      }
    }
  }

  /** The whole field object, after the field's key, with the query object closed after it. */
  function LongForm(field: string, kvs: seq<(string, XToken)>): seq<XToken>
  {
    [FieldName(field), StartObject] + Pairs(kvs) + [EndObject, EndObject]
  }

  /** The state in which the long form's pairs are read. */
  function LongFormStart(field: string): State
  {
    Initial.(fieldName := Some(field), current := Some(field), outerName := Some(field))
  }

  /** A field name and an opening brace hand what follows to the inner loop, for the field named. */
  lemma OpenFieldObject(field: string, kvs: seq<(string, XToken)>, tail: seq<XToken>,
                        parseFloat: string -> Option<Float32>)
    ensures var r := ParseFieldObject(Pairs(kvs) + tail, LongFormStart(field), parseFloat);
            ParseQueryObject([FieldName(field), StartObject] + Pairs(kvs) + tail, Initial, parseFloat)
            == if r.Failure? then Failure(r.error) else ParseQueryObject(r.value.1, r.value.0, parseFloat)
  {
    var toks := [FieldName(field), StartObject] + Pairs(kvs) + tail;
    var st1 := Initial.(current := Some(field), outerName := Some(field));
    assert toks[0] == FieldName(field);
    assert toks[1..][0] == StartObject && toks[1..][1..] == Pairs(kvs) + tail;
    assert st1.(fieldName := st1.current) == LongFormStart(field);
  }

  /** The two closing braces end the field object and then the query object. */
  lemma ClosingBraces(st: State, rest: seq<XToken>, parseFloat: string -> Option<Float32>)
    ensures ParseFieldObject([EndObject, EndObject] + rest, st, parseFloat) == Success((st, [EndObject] + rest))
    ensures ParseQueryObject([EndObject] + rest, st, parseFloat) == Success(st)
  {
    assert ([EndObject, EndObject] + rest)[1..] == [EndObject] + rest;
  }

  /** The long form yields exactly the parameters its pairs set. */
  lemma LongFormReadsPairs(field: string, kvs: seq<(string, XToken)>, rest: seq<XToken>,
                           parseFloat: string -> Option<Float32>)
    requires AllPlain(kvs)
    ensures FromXContent(LongForm(field, kvs) + rest, parseFloat)
         == match ApplyPairs(LongFormStart(field), kvs, parseFloat)
            case Failure(e) => Failure(e)
            case Success(st) => Build(st)
  {
    assert LongForm(field, kvs) + rest == [FieldName(field), StartObject] + Pairs(kvs) + ([EndObject, EndObject] + rest);
    OpenFieldObject(field, kvs, [EndObject, EndObject] + rest, parseFloat);
    ParsePairs(kvs, [EndObject, EndObject] + rest, LongFormStart(field), parseFloat);
    var a := ApplyPairs(LongFormStart(field), kvs, parseFloat);
    if a.Success? {
      ClosingBraces(a.value, rest, parseFloat);
    }
  }

  /** A long form without a `query` key is rejected for lacking text, whatever else it sets. */
  lemma LongFormWithoutQueryRejected(field: string, kvs: seq<(string, XToken)>, rest: seq<XToken>,
                                     parseFloat: string -> Option<Float32>)
    requires AllPlain(kvs)
    requires !HasKey(kvs, QueryKey)
    requires ApplyPairs(LongFormStart(field), kvs, parseFloat).Success?
    ensures FromXContent(LongForm(field, kvs) + rest, parseFloat) == Failure(NoText)
  {
    LongFormReadsPairs(field, kvs, rest, parseFloat);
    AbsentKeyKeepsValue(LongFormStart(field), kvs, parseFloat);
  }

  /** Every parameter the long form leaves out takes its default. */
  lemma LongFormDefaults(field: string, kvs: seq<(string, XToken)>, rest: seq<XToken>,
                         parseFloat: string -> Option<Float32>)
    requires AllPlain(kvs)
    requires FromXContent(LongForm(field, kvs) + rest, parseFloat).Success?
    ensures var b := FromXContent(LongForm(field, kvs) + rest, parseFloat).value;
            && b.fieldName == field
            && (!HasKey(kvs, AnalyzerKey) ==> b.analyzer == None)
            && (!HasKey(kvs, BoostKey) ==> b.base.boost == DefaultBoost)
            && (!HasKey(kvs, SynonymBoostKey) ==> b.synonymBoost == DefaultSynonymBoost)
            && (!HasKey(kvs, ZeroTermsKey) ==> b.zeroTerms == NONE)
            && (!HasKey(kvs, NameKey) ==> b.base.queryName == None)
  {
    LongFormReadsPairs(field, kvs, rest, parseFloat);
    AbsentKeyKeepsValue(LongFormStart(field), kvs, parseFloat);
  }

  /** A key the field object does not support is rejected when its value is reached. */
  lemma UnknownKeyRejected(field: string, kvs: seq<(string, XToken)>, key: string, t: XToken,
                           rest: seq<XToken>, parseFloat: string -> Option<Float32>)
    requires AllPlain(kvs)
    requires ApplyPairs(LongFormStart(field), kvs, parseFloat).Success?
    requires !KnownKey(key) && IsValue(t)
    ensures FromXContent([FieldName(field), StartObject] + Pairs(kvs) + [FieldName(key), t] + rest, parseFloat)
         == Failure(UnsupportedKey(key))
  {
    assert [FieldName(field), StartObject] + Pairs(kvs) + [FieldName(key), t] + rest
        == [FieldName(field), StartObject] + Pairs(kvs) + ([FieldName(key), t] + rest);
    InsideFieldObject(field, kvs, [FieldName(key), t] + rest, parseFloat);
    KeyThenToken(ApplyPairs(LongFormStart(field), kvs, parseFloat).value, key, t, rest, parseFloat);
  }

  /** Inside the field object, an object, an array or a JSON null where a value belongs is rejected. */
  lemma NonValueRejected(field: string, kvs: seq<(string, XToken)>, key: string, t: XToken,
                         rest: seq<XToken>, parseFloat: string -> Option<Float32>)
    requires AllPlain(kvs)
    requires ApplyPairs(LongFormStart(field), kvs, parseFloat).Success?
    requires NotStructure(t) && !IsValue(t)
    ensures FromXContent([FieldName(field), StartObject] + Pairs(kvs) + [FieldName(key), t] + rest, parseFloat)
         == Failure(UnknownToken(Some(key)))
  {
    assert [FieldName(field), StartObject] + Pairs(kvs) + [FieldName(key), t] + rest
        == [FieldName(field), StartObject] + Pairs(kvs) + ([FieldName(key), t] + rest);
    InsideFieldObject(field, kvs, [FieldName(key), t] + rest, parseFloat);
    KeyThenToken(ApplyPairs(LongFormStart(field), kvs, parseFloat).value, key, t, rest, parseFloat);
  }

  /** Inside the field object, a key followed by a token is that token read under that key. */
  lemma {:induction false} KeyThenToken(st: State, key: string, t: XToken, rest: seq<XToken>, parseFloat: string -> Option<Float32>)
    requires NotStructure(t)
    ensures ParseFieldObject([FieldName(key), t] + rest, st, parseFloat)
         == match Step(st.(current := Some(key)), t, parseFloat)
            case Failure(e) => Failure(e)
            case Success(st') => ParseFieldObject(rest, st', parseFloat)
  {
    var toks := [FieldName(key), t] + rest;
    assert toks[0] == FieldName(key) && toks[1..][0] == t && toks[1..][1..] == rest;
  }

  /** Reading the long form's field object: its pairs first, then whatever follows them. */
  lemma InsideFieldObject(field: string, kvs: seq<(string, XToken)>, tail: seq<XToken>,
                          parseFloat: string -> Option<Float32>)
    requires AllPlain(kvs)
    requires ApplyPairs(LongFormStart(field), kvs, parseFloat).Success?
    ensures FromXContent([FieldName(field), StartObject] + Pairs(kvs) + tail, parseFloat)
         == match ParseFieldObject(tail, ApplyPairs(LongFormStart(field), kvs, parseFloat).value, parseFloat)
            case Failure(e) => Failure(e)
            case Success((st, rest)) =>
              match ParseQueryObject(rest, st, parseFloat)
              case Failure(e) => Failure(e)
              case Success(st') => Build(st')
  {
    OpenFieldObject(field, kvs, tail, parseFloat);
    ParsePairs(kvs, tail, LongFormStart(field), parseFloat);
  }

  /** A second field after a complete field object is rejected, whether in long or short form. */
  lemma SecondFieldRejected(field: string, kvs: seq<(string, XToken)>, other: string, t: XToken,
                            rest: seq<XToken>, parseFloat: string -> Option<Float32>)
    requires AllPlain(kvs)
    requires ApplyPairs(LongFormStart(field), kvs, parseFloat).Success?
    requires NotStructure(t)
    ensures FromXContent([FieldName(field), StartObject] + Pairs(kvs) + [EndObject, FieldName(other), t] + rest,
                         parseFloat)
         == Failure(MultipleFields(field, Some(other)))
  {
    var after := [FieldName(other), t] + rest;
    var tail := [EndObject] + after;
    var st := ApplyPairs(LongFormStart(field), kvs, parseFloat).value;
    assert ParseFieldObject(tail, st, parseFloat) == Success((st, after)) by {
      assert tail[0] == EndObject && tail[1..] == after;
    }
    assert ParseQueryObject(after, st, parseFloat) == Failure(MultipleFields(field, Some(other))) by {
      AbsentKeyKeepsValue(LongFormStart(field), kvs, parseFloat);
      assert st.fieldName == Some(field);
      var st1 := st.(current := Some(other), outerName := Some(other));
      assert after[0] == FieldName(other) && after[1..][0] == t;
      assert ParseQueryObject(after, st, parseFloat) == ParseQueryObject(after[1..], st1, parseFloat);
    }
    assert [FieldName(field), StartObject] + Pairs(kvs) + [EndObject, FieldName(other), t] + rest
        == [FieldName(field), StartObject] + Pairs(kvs) + tail;
    InsideFieldObject(field, kvs, tail, parseFloat);
  }

  /**
   * A second field after a short-form first field is rejected too, whether it
   * is written in long or short form, naming both fields.
   */
  lemma ShortFormThenSecondFieldRejected(field: string, v: XToken, other: string, t: XToken,
                                         rest: seq<XToken>, parseFloat: string -> Option<Float32>)
    requires IsValue(v) || v.NullValue?
    requires NotStructure(t)
    ensures FromXContent([FieldName(field), v, FieldName(other), t] + rest, parseFloat)
         == Failure(MultipleFields(field, Some(other)))
  {
    var toks := [FieldName(field), v, FieldName(other), t] + rest;
    var st1 := Initial.(current := Some(field), outerName := Some(field));
    var st2 := st1.(fieldName := Some(field), value := ObjectText(v).value);
    var st3 := st2.(current := Some(other), outerName := Some(other));
    assert toks[0] == FieldName(field) && toks[1..][0] == v;
    assert toks[1..][1..][0] == FieldName(other) && toks[1..][1..][1..][0] == t;
    assert ParseQueryObject(toks, Initial, parseFloat) == ParseQueryObject(toks[1..], st1, parseFloat);
    assert ParseQueryObject(toks[1..], st1, parseFloat) == ParseQueryObject(toks[1..][1..], st2, parseFloat);
    assert ParseQueryObject(toks[1..][1..], st2, parseFloat) == ParseQueryObject(toks[1..][1..][1..], st3, parseFloat);
    assert ParseQueryObject(toks[1..][1..][1..], st3, parseFloat) == Failure(MultipleFields(field, Some(other)));
  }

  /** The short form `"field": value` sets the text and leaves every other parameter at its default. */
  lemma ShortForm(field: string, t: XToken, rest: seq<XToken>, parseFloat: string -> Option<Float32>)
    requires IsValue(t)
    ensures FromXContent([FieldName(field), t, EndObject] + rest, parseFloat)
         == Success(Builder(field, ObjectText(t).value.value, None, NONE, DefaultSynonymBoost, DefaultBase))
  {
    var toks := [FieldName(field), t, EndObject] + rest;
    var st1 := Initial.(current := Some(field), outerName := Some(field));
    assert toks[0] == FieldName(field) && toks[1..][0] == t;
    assert toks[1..][1..] == [EndObject] + rest;
    var st2 := st1.(fieldName := Some(field), value := ObjectText(t).value);
    assert ParseQueryObject(toks, Initial, parseFloat) == ParseQueryObject(toks[1..], st1, parseFloat);
    assert ParseQueryObject(toks[1..], st1, parseFloat) == ParseQueryObject(toks[1..][1..], st2, parseFloat);
  }

  /** A short form whose value is a JSON null leaves no text, which is rejected. */
  lemma ShortFormNullRejected(field: string, rest: seq<XToken>, parseFloat: string -> Option<Float32>)
    ensures FromXContent([FieldName(field), NullValue, EndObject] + rest, parseFloat) == Failure(NoText)
  {
    var toks := [FieldName(field), NullValue, EndObject] + rest;
    var st1 := Initial.(current := Some(field), outerName := Some(field));
    assert toks[0] == FieldName(field) && toks[1..][0] == NullValue;
    assert toks[1..][1..] == [EndObject] + rest;
    var st2 := st1.(fieldName := Some(field), value := None);
    assert ParseQueryObject(toks, Initial, parseFloat) == ParseQueryObject(toks[1..], st1, parseFloat);
    assert ParseQueryObject(toks[1..], st1, parseFloat) == ParseQueryObject(toks[1..][1..], st2, parseFloat);
  }

  // ---------------------------------------------------------------------------
  // doXContent
  // ---------------------------------------------------------------------------

  /** The token a query value is written as. */
  function ValueToken(v: Value): (t: XToken)
    ensures IsValue(t) && ObjectText(t) == Success(Some(v))
  {
    match v
    case Str(s) => StringValue(s)
    case Num(s) => NumberValue(s)
    case Bool(b) => BoolValue(b)
  }

  /** The enum constant's name, as zeroTermsQuery.toString() writes it. */
  function ZeroTermsName(z: ZeroTermsQuery): string
  {
    match z
    case NONE => "NONE"
    case ALL => "ALL"
    case NULL => "NULL"
  }

  /** The written policy reads back as itself, except NULL, which no literal selects. */
  lemma ZeroTermsNameRoundTrip(z: ZeroTermsQuery)
    ensures z != NULL ==> ParseZeroTerms(ZeroTermsName(z)) == Success(z)
    ensures z == NULL ==> ParseZeroTerms(ZeroTermsName(z)) == Failure(UnsupportedZeroTerms("NULL"))
  {
    if z == NONE {
      assert EqualsIgnoreCase("NONE", "none");
    } else if z == ALL {
      assert EqualsIgnoreCase("ALL", "all");
      assert !EqualsIgnoreCase("ALL", "none");
    } else {
      assert !EqualsIgnoreCase("NULL", "none") by { assert Lower("NULL"[1]) != Lower("none"[1]); }
    }
  }

  /** The pairs doXContent writes inside the field object, in its order. */
  function WrittenPairs(b: Builder, floatText: Float32 -> string): seq<(string, XToken)>
  {
    [(QueryKey, ValueToken(b.value))]
    + (if b.analyzer.Some? then [(AnalyzerKey, StringValue(b.analyzer.value))] else [])
    + [(SynonymBoostKey, NumberValue(floatText(b.synonymBoost))),
       (ZeroTermsKey, StringValue(ZeroTermsName(b.zeroTerms))),
       (BoostKey, NumberValue(floatText(b.base.boost)))]
    + (if b.base.queryName.Some? then [(NameKey, StringValue(b.base.queryName.value))] else [])
  }

  /** Every value doXContent writes inside the field object is a value token. */
  lemma WrittenPairsPlain(b: Builder, floatText: Float32 -> string)
    ensures AllPlain(WrittenPairs(b, floatText))
  {
    var kvs := WrittenPairs(b, floatText);
    forall i | 0 <= i < |kvs|
      ensures NotStructure(kvs[i].1)
    {
      assert IsValue(kvs[i].1);
    }
  }

  /**
   * doXContent: `"synonym_match": { "<field>": { ...pairs... } }`.
   * `floatText` is the generator's float-to-decimal conversion.
   */
  function DoXContent(b: Builder, floatText: Float32 -> string): (toks: seq<XToken>)
    ensures |toks| > 2 && toks[..2] == [FieldName(Name), StartObject]
  {
    [FieldName(Name), StartObject] + LongForm(b.fieldName, WrittenPairs(b, floatText))
  }

  lemma {:induction false} ApplyPairsAppend(st: State, a: seq<(string, XToken)>, c: seq<(string, XToken)>,
                                            parseFloat: string -> Option<Float32>)
    ensures ApplyPairs(st, a + c, parseFloat)
         == match ApplyPairs(st, a, parseFloat)
            case Failure(e) => Failure(e)
            case Success(st') => ApplyPairs(st', c, parseFloat)
    decreases |a|
  {
    if |a| == 0 {
      assert a + c == c;
    } else {
      assert (a + c)[0] == a[0];
      assert (a + c)[1..] == a[1..] + c;
      match Step(st.(current := Some(a[0].0)), a[0].1, parseFloat)
      case Failure(e) =>
      case Success(st') => ApplyPairsAppend(st', a[1..], c, parseFloat);
    }
  }

  /** Applying a single pair is one step. */
  lemma ApplyOne(st: State, key: string, t: XToken, parseFloat: string -> Option<Float32>)
    ensures ApplyPairs(st, [(key, t)], parseFloat)
         == Step(st.(current := Some(key)), t, parseFloat)
  {
    var kvs := [(key, t)];
    assert kvs[1..] == [];
  }

  /**
   * Reading back what doXContent wrote, after the registry has consumed the
   * query's name and opening brace, gives the same builder, base fields
   * included, provided the policy is not NULL and the float text reads back as
   * the float written.
   */
  lemma XContentRoundTrip(b: Builder, floatText: Float32 -> string, parseFloat: string -> Option<Float32>,
                          rest: seq<XToken>)
    requires b.zeroTerms != NULL
    requires parseFloat(floatText(b.synonymBoost)) == Some(b.synonymBoost)
    requires parseFloat(floatText(b.base.boost)) == Some(b.base.boost)
    ensures FromXContent(DoXContent(b, floatText)[2..] + rest, parseFloat) == Success(b)
  {
    var kvs := WrittenPairs(b, floatText);
    var st := ReadWrittenPairs(b, floatText, parseFloat);
    LongFormReadsPairs(b.fieldName, kvs, rest, parseFloat);
  }

  /** Applying the written pairs sets every parameter to the builder's. */
  lemma ReadWrittenPairs(b: Builder, floatText: Float32 -> string, parseFloat: string -> Option<Float32>)
    returns (st: State)
    requires b.zeroTerms != NULL
    requires parseFloat(floatText(b.synonymBoost)) == Some(b.synonymBoost)
    requires parseFloat(floatText(b.base.boost)) == Some(b.base.boost)
    ensures AllPlain(WrittenPairs(b, floatText))
    ensures ApplyPairs(LongFormStart(b.fieldName), WrittenPairs(b, floatText), parseFloat) == Success(st)
    ensures Build(st) == Success(b)
  {
    var q := [(QueryKey, ValueToken(b.value))];
    var an: seq<(string, XToken)> := if b.analyzer.Some? then [(AnalyzerKey, StringValue(b.analyzer.value))] else [];
    var mid := [(SynonymBoostKey, NumberValue(floatText(b.synonymBoost))),
                (ZeroTermsKey, StringValue(ZeroTermsName(b.zeroTerms))),
                (BoostKey, NumberValue(floatText(b.base.boost)))];
    var nm: seq<(string, XToken)> := if b.base.queryName.Some? then [(NameKey, StringValue(b.base.queryName.value))] else [];
    var kvs := WrittenPairs(b, floatText);
    assert kvs == q + an + mid + nm;
    WrittenPairsPlain(b, floatText);

    var s0 := LongFormStart(b.fieldName);
    ApplyOne(s0, QueryKey, ValueToken(b.value), parseFloat);
    var s1 := ApplyPairs(s0, q, parseFloat).value;
    assert s1 == s0.(current := Some(QueryKey), value := Some(b.value));

    var s2 := s1;
    if b.analyzer.Some? {
      ApplyOne(s1, AnalyzerKey, StringValue(b.analyzer.value), parseFloat);
      s2 := s1.(current := Some(AnalyzerKey), analyzer := b.analyzer);
    } else {
      assert ApplyPairs(s1, an, parseFloat) == Success(s1);
    }
    assert ApplyPairs(s1, an, parseFloat) == Success(s2);

    ZeroTermsNameRoundTrip(b.zeroTerms);
    var s3 := MidPairs(s2, b, floatText, parseFloat);
    assert mid == [(SynonymBoostKey, NumberValue(floatText(b.synonymBoost))),
                   (ZeroTermsKey, StringValue(ZeroTermsName(b.zeroTerms))),
                   (BoostKey, NumberValue(floatText(b.base.boost)))];

    st := s3;
    if b.base.queryName.Some? {
      ApplyOne(s3, NameKey, StringValue(b.base.queryName.value), parseFloat);
      st := s3.(current := Some(NameKey), queryName := b.base.queryName);
    } else {
      assert ApplyPairs(s3, nm, parseFloat) == Success(s3);
    }
    assert ApplyPairs(s3, nm, parseFloat) == Success(st);

    ApplyPairsAppend(s0, q, an, parseFloat);
    ApplyPairsAppend(s0, q + an, mid, parseFloat);
    ApplyPairsAppend(s0, q + an + mid, nm, parseFloat);
  }

  /** The three pairs every written object holds: synonym boost, policy, boost. */
  lemma MidPairs(s: State, b: Builder, floatText: Float32 -> string, parseFloat: string -> Option<Float32>)
    returns (s': State)
    requires b.zeroTerms != NULL
    requires parseFloat(floatText(b.synonymBoost)) == Some(b.synonymBoost)
    requires parseFloat(floatText(b.base.boost)) == Some(b.base.boost)
    requires ParseZeroTerms(ZeroTermsName(b.zeroTerms)) == Success(b.zeroTerms)
    ensures ApplyPairs(s, [(SynonymBoostKey, NumberValue(floatText(b.synonymBoost))),
                           (ZeroTermsKey, StringValue(ZeroTermsName(b.zeroTerms))),
                           (BoostKey, NumberValue(floatText(b.base.boost)))], parseFloat) == Success(s')
    ensures s' == s.(current := Some(BoostKey), synonymBoost := b.synonymBoost, zeroTerms := b.zeroTerms,
                     boost := b.base.boost)
  {
    var p1 := (SynonymBoostKey, NumberValue(floatText(b.synonymBoost)));
    var p2 := (ZeroTermsKey, StringValue(ZeroTermsName(b.zeroTerms)));
    var p3 := (BoostKey, NumberValue(floatText(b.base.boost)));
    ApplyOne(s, p1.0, p1.1, parseFloat);
    var a := s.(current := Some(SynonymBoostKey), synonymBoost := b.synonymBoost);
    ApplyOne(a, p2.0, p2.1, parseFloat);
    var c := a.(current := Some(ZeroTermsKey), zeroTerms := b.zeroTerms);
    ApplyOne(c, p3.0, p3.1, parseFloat);
    s' := c.(current := Some(BoostKey), boost := b.base.boost);
    ApplyPairsAppend(s, [p1], [p2, p3], parseFloat);
    ApplyPairsAppend(a, [p2], [p3], parseFloat);
    assert [p1] + [p2, p3] == [p1, p2, p3];
    assert [p2] + [p3] == [p2, p3];
  }

  /** A builder with the NULL policy is written in a form that fromXContent rejects. */
  lemma NullPolicyDoesNotRoundTrip(b: Builder, floatText: Float32 -> string,
                                   parseFloat: string -> Option<Float32>, rest: seq<XToken>)
    requires b.zeroTerms == NULL
    requires parseFloat(floatText(b.synonymBoost)) == Some(b.synonymBoost)
    ensures FromXContent(DoXContent(b, floatText)[2..] + rest, parseFloat) == Failure(UnsupportedZeroTerms("NULL"))
  {
    var q := [(QueryKey, ValueToken(b.value))];
    var an: seq<(string, XToken)> := if b.analyzer.Some? then [(AnalyzerKey, StringValue(b.analyzer.value))] else [];
    var p1 := (SynonymBoostKey, NumberValue(floatText(b.synonymBoost)));
    var p2 := (ZeroTermsKey, StringValue("NULL"));
    var tl := [(BoostKey, NumberValue(floatText(b.base.boost)))]
              + (if b.base.queryName.Some? then [(NameKey, StringValue(b.base.queryName.value))] else []);
    var kvs := WrittenPairs(b, floatText);
    var s0 := LongFormStart(b.fieldName);
    var s1 := s0.(current := Some(QueryKey), value := Some(b.value));
    var s2 := if b.analyzer.Some? then s1.(current := Some(AnalyzerKey), analyzer := b.analyzer) else s1;
    var s3 := s2.(current := Some(SynonymBoostKey), synonymBoost := b.synonymBoost);
    assert ApplyPairs(s0, q + an, parseFloat) == Success(s2) by {
      ApplyOne(s0, QueryKey, ValueToken(b.value), parseFloat);
      if b.analyzer.Some? {
        ApplyOne(s1, AnalyzerKey, StringValue(b.analyzer.value), parseFloat);
      } else {
        assert ApplyPairs(s1, an, parseFloat) == Success(s1);
      }
      ApplyPairsAppend(s0, q, an, parseFloat);
    }
    assert ApplyPairs(s0, q + an + [p1], parseFloat) == Success(s3) by {
      ApplyOne(s2, p1.0, p1.1, parseFloat);
      ApplyPairsAppend(s0, q + an, [p1], parseFloat);
    }
    assert ApplyPairs(s3, [p2], parseFloat) == Failure(UnsupportedZeroTerms("NULL")) by {
      ZeroTermsNameRoundTrip(NULL);
      ApplyOne(s3, p2.0, p2.1, parseFloat);
    }
    assert ApplyPairs(s0, kvs, parseFloat) == Failure(UnsupportedZeroTerms("NULL")) by {
      assert kvs == q + an + [p1] + [p2] + tl;
      ApplyPairsAppend(s0, q + an + [p1], [p2], parseFloat);
      ApplyPairsAppend(s0, q + an + [p1] + [p2], tl, parseFloat);
    }
    WrittenPairsPlain(b, floatText);
    LongFormReadsPairs(b.fieldName, kvs, rest, parseFloat);
  }
}

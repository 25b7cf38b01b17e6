/** SynonymMatchQuery.ZeroTermsQuery: the policy for an analysis that yields no terms. */
module ZeroTerms {

  import opened Wrappers
  import opened Errors
  import opened Wire
  import opened Queries

  datatype ZeroTermsQuery = NONE | ALL | NULL

  /** SynonymMatchQuery.DEFAULT_ZERO_TERMS_QUERY. */
  const DefaultZeroTermsQuery: ZeroTermsQuery := NONE

  /** The fixed wire ordinal of each constant. */
  function Ordinal(z: ZeroTermsQuery): (n: nat)
    ensures n < 3
    ensures z == NONE <==> n == 0
    ensures z == ALL <==> n == 1
    ensures z == NULL <==> n == 2
  {
    match z
    case NONE => 0
    case ALL => 1
    case NULL => 2
  }

  /** The constant whose ordinal is `ord`: the scan over values() in readFromStream. */
  function FromOrdinal(ord: int): (r: Result<ZeroTermsQuery, Error>)
    ensures r.Success? <==> 0 <= ord < 3
    ensures r.Success? ==> Ordinal(r.value) == ord
    ensures r.Failure? ==> r.error == UnknownSerializedType(ord)
  {
    if ord == 0 then Success(NONE)
    else if ord == 1 then Success(ALL)
    else if ord == 2 then Success(NULL)
    else Failure(UnknownSerializedType(ord))
  }

  /** Decoding inverts the ordinal. */
  lemma OrdinalRoundTrip(z: ZeroTermsQuery)
    ensures FromOrdinal(Ordinal(z)) == Success(z)
  {
  }

  /** writeTo: the ordinal as a variable-length int. */
  function WriteTo(z: ZeroTermsQuery): (items: seq<Item>)
    ensures |items| == 1 && items[0].VIntItem?
    ensures FromOrdinal(items[0].n) == Success(z)
  {
    [VIntItem(Ordinal(z))]
  }

  /** readFromStream: one variable-length int, which must be a known ordinal. */
  function ReadFromStream(items: seq<Item>): (r: Result<(ZeroTermsQuery, seq<Item>), Error>)
    ensures r.Success? ==> items == WriteTo(r.value.0) + r.value.1
    ensures |items| > 0 && items[0].VIntItem? && !(0 <= items[0].n < 3) ==>
              r == Failure(UnknownSerializedType(items[0].n))
    ensures (|items| == 0 || !items[0].VIntItem?) ==> r == Failure(UnexpectedItem)
  {
    var (ord, rest) :- ReadVInt(items);
    var z :- FromOrdinal(ord);
    Success((z, rest))
  }

  /** Reading back what writeTo wrote yields the same constant and leaves the rest alone. */
  lemma StreamRoundTrip(z: ZeroTermsQuery, rest: seq<Item>)
    ensures ReadFromStream(WriteTo(z) + rest) == Success((z, rest))
  {
    assert (WriteTo(z) + rest)[1..] == rest;
  }

  /** SynonymMatchQuery.zeroTermsQuery(): the query that stands in for an empty analysis. */
  function ZeroTermsResult(z: ZeroTermsQuery): (q: Query)
    ensures z == NONE <==> q.MatchNoDocs?
    ensures z == ALL <==> q == MatchAllDocs
    ensures z == NULL <==> q == NullQuery
  {
    match z
    case NULL => NullQuery
    case NONE => MatchNoDocs("Matching no documents because no terms present")
    case ALL => MatchAllDocs
  }
}

/**
 * The binary stream, as a sequence of typed items: each StreamOutput.writeX
 * appends one item and each StreamInput.readX consumes one. Byte-level encoding
 * is not modelled; a read that meets an item of another kind, or the end of
 * the stream, fails.
 */
module Wire {

  import opened Wrappers
  import opened Values
  import opened Errors

  datatype Item =
    | StringItem(s: string)
    | GenericItem(v: Value)
    | VIntItem(n: int)
    | OptionalStringItem(o: Option<string>)
    | FloatItem(f: Float32)

  function ReadString(items: seq<Item>): (r: Result<(string, seq<Item>), Error>)
    ensures r.Success? <==> |items| > 0 && items[0].StringItem?
    ensures r.Success? ==> items == [StringItem(r.value.0)] + r.value.1
  {
    if |items| > 0 && items[0].StringItem? then Success((items[0].s, items[1..]))
    else Failure(UnexpectedItem)
  }

  function ReadGenericValue(items: seq<Item>): (r: Result<(Value, seq<Item>), Error>)
    ensures r.Success? <==> |items| > 0 && items[0].GenericItem?
    ensures r.Success? ==> items == [GenericItem(r.value.0)] + r.value.1
  {
    if |items| > 0 && items[0].GenericItem? then Success((items[0].v, items[1..]))
    else Failure(UnexpectedItem)
  }

  function ReadVInt(items: seq<Item>): (r: Result<(int, seq<Item>), Error>)
    ensures r.Success? <==> |items| > 0 && items[0].VIntItem?
    ensures r.Success? ==> items == [VIntItem(r.value.0)] + r.value.1
  {
    if |items| > 0 && items[0].VIntItem? then Success((items[0].n, items[1..]))
    else Failure(UnexpectedItem)
  }

  function ReadOptionalString(items: seq<Item>): (r: Result<(Option<string>, seq<Item>), Error>)
    ensures r.Success? <==> |items| > 0 && items[0].OptionalStringItem?
    ensures r.Success? ==> items == [OptionalStringItem(r.value.0)] + r.value.1
  {
    if |items| > 0 && items[0].OptionalStringItem? then Success((items[0].o, items[1..]))
    else Failure(UnexpectedItem)
  }

  function ReadFloat(items: seq<Item>): (r: Result<(Float32, seq<Item>), Error>)
    ensures r.Success? <==> |items| > 0 && items[0].FloatItem?
    ensures r.Success? ==> items == [FloatItem(r.value.0)] + r.value.1
  {
    if |items| > 0 && items[0].FloatItem? then Success((items[0].f, items[1..]))
    else Failure(UnexpectedItem)
  }
}

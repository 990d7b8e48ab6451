/** The values that travel through encoding/json in the server, and the codec
    itself kept abstract: the model never looks at the JSON grammar, only at
    whether marshalling or unmarshalling succeeds and what it produces. */
module Json {
  import opened Results

  newtype byte = x: int | 0 <= x < 256

  /** A dynamic value as the server handles it (Go's `interface{}` holding
      what json.Unmarshal produces, or a map the server builds itself). */
  datatype Value =
    | Null
    | Bool(b: bool)
    | Num(n: int)
    | Str(s: string)
    | Arr(items: seq<Value>)
    | Obj(fields: map<string, Value>)

  /** json.Marshal and json.Unmarshal into an `interface{}`, as given
      functions: marshalling may fail with a message, and so may decoding. */
  datatype Codec = Codec(
    marshal: Value -> Result<seq<byte>>,
    unmarshal: seq<byte> -> Result<Value>)

  /** Go's `string(bytes)`: the same bytes read as text, one character per byte. */
  function Text(bs: seq<byte>): (s: string)
    ensures |s| == |bs|
  {
    seq(|bs|, i requires 0 <= i < |bs| => bs[i] as int as char)
  }

  /** Text keeps every byte, so two byte strings with the same text are equal. */
  lemma TextInjective(a: seq<byte>, b: seq<byte>)
    requires Text(a) == Text(b)
    ensures a == b
  {
    assert |a| == |b|;
    forall i | 0 <= i < |a| ensures a[i] == b[i] {
      assert Text(a)[i] == Text(b)[i];
    }
  }

  /** The object `{"error": msg}` (a `map[string]string` in the source). */
  function ErrorValue(msg: string): (v: Value)
    ensures v.Obj? && v.fields.Keys == {"error"} && v.fields["error"] == Str(msg)
  {
    Obj(map["error" := Str(msg)])
  }
}

/**
 * `ConvertJSON` of pkg/inspect/parse.go: decode a byte buffer into a JSON
 * object. The decoder itself (encoding/json) is not part of this model; it is
 * the parameter `parse`, which stands for json.Unmarshal into the fresh map.
 */
module SerializationBridge {
  import opened Wrappers
  import opened Values

  type Parser = seq<bv8> -> Result<map<string, Value>, Error>

  /** An empty buffer gives an empty object and no error, without calling the decoder. */
  function ConvertJSON(b: seq<bv8>, parse: Parser): (r: Result<map<string, Value>, Error>)
    ensures |b| == 0 ==> r == Ok(map[])
    ensures |b| != 0 ==> r == parse(b)
  {
    if |b| != 0 then parse(b) else Ok(map[])
  }
}

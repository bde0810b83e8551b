/** JSON values as `json.load` returns them and `json.dump` writes them.
    The textual syntax is not modelled: a `Codec` pairs the two library
    functions, and the only thing assumed of them is stated, where a proof
    needs it, as `ReadsBack`. */
module Json {
  import opened Results

  datatype Value =
    | Null
    | Boolean(b: bool)
    | Number(n: int)
    | Str(s: string)
    | Array(items: seq<Value>)
    | Object(fields: map<string, Value>)

  /** `load` is `json.load` (None: the text does not decode), `dump` is
      `json.dump` with the program's fixed indentation and separators. */
  datatype Codec = Codec(load: string -> Option<Value>, dump: Value -> string)

  /** `json.load` reads back what `json.dump` wrote. */
  ghost predicate ReadsBack(codec: Codec) {
    forall v :: codec.load(codec.dump(v)) == Some(v)
  }
}

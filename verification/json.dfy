/** JSON values and the serde conventions the crate's derived decoders follow.

    Turning JSON text into a value is serde_json's parser, which is not part
    of this model: callers receive it as a function `string -> Option<Json>`.
    Turning a value into one of the crate's records is modelled here and in
    the record modules: a required field that is missing is an error, an
    `Option` field that is missing or `null` is `None`, fields the record
    does not declare are ignored, and a tagged enum is chosen by the string
    in its `"type"` field. */
module Json {
  import opened Base

  /** serde_json keeps integers exactly; other numbers are floating point,
      which the model keeps only as text. */
  datatype Number = Int(i: int) | Float(text: string)

  datatype Json =
    | Null
    | Bool(b: bool)
    | Num(n: Number)
    | Str(s: string)
    | Array(items: seq<Json>)
    | Object(fields: map<string, Json>)

  /** serde's error text is not modelled word for word; the model keeps a short description. */
  type DecodeError = string

  /** serde_json's `from_str` as seen by the crate: text either parses or it does not. */
  type Parser = string -> Option<Json>

  function MissingField(key: string): DecodeError
  {
    "missing field `" + key + "`"
  }

  function AsString(j: Json): (r: Result<string, DecodeError>)
    ensures r.Ok? <==> j.Str?
    ensures r.Ok? ==> r.value == j.s
  {
    if j.Str? then Ok(j.s) else Err("invalid type: expected a string")
  }

  function AsBool(j: Json): (r: Result<bool, DecodeError>)
    ensures r.Ok? <==> j.Bool?
    ensures r.Ok? ==> r.value == j.b
  {
    if j.Bool? then Ok(j.b) else Err("invalid type: expected a boolean")
  }

  /** A `u32` accepts only an integer in range; a float such as `1.0` is refused. */
  function AsU32(j: Json): (r: Result<u32, DecodeError>)
    ensures r.Ok? <==> j.Num? && j.n.Int? && 0 <= j.n.i < U32_LIMIT
    ensures r.Ok? ==> r.value == j.n.i
  {
    if j.Num? && j.n.Int? then
      if 0 <= j.n.i < U32_LIMIT then Ok(j.n.i as u32) else Err("invalid value: integer out of range for u32")
    else Err("invalid type: expected u32")
  }

  function AsUsize(j: Json): (r: Result<usize, DecodeError>)
    ensures r.Ok? <==> j.Num? && j.n.Int? && 0 <= j.n.i < U64_LIMIT
    ensures r.Ok? ==> r.value == j.n.i
  {
    if j.Num? && j.n.Int? then
      if 0 <= j.n.i < U64_LIMIT then Ok(j.n.i as usize) else Err("invalid value: integer out of range for usize")
    else Err("invalid type: expected usize")
  }

  /** A `serde_json::Value` field accepts anything. */
  function AsValue(j: Json): (r: Result<Json, DecodeError>)
    ensures r == Ok(j)
  {
    Ok(j)
  }

  function AsObject(j: Json): (r: Result<map<string, Json>, DecodeError>)
    ensures r.Ok? <==> j.Object?
    ensures r.Ok? ==> r.value == j.fields
  {
    if j.Object? then Ok(j.fields) else Err("invalid type: expected a map")
  }

  /** A `Vec<T>` field: every element must decode, in order. */
  function AsArray<T>(j: Json, dec: Json -> Result<T, DecodeError>): (r: Result<seq<T>, DecodeError>)
    ensures r.Ok? ==> j.Array? && |r.value| == |j.items|
    ensures r.Ok? ==> forall i :: 0 <= i < |r.value| ==> dec(j.items[i]) == Ok(r.value[i])
  {
    if !j.Array? then Err("invalid type: expected a sequence")
    else DecodeEach(j.items, dec)
  }

  function DecodeEach<T>(items: seq<Json>, dec: Json -> Result<T, DecodeError>): (r: Result<seq<T>, DecodeError>)
    ensures r.Ok? ==> |r.value| == |items|
    ensures r.Ok? ==> forall i :: 0 <= i < |r.value| ==> dec(items[i]) == Ok(r.value[i])
    ensures r.Err? <==> exists i :: 0 <= i < |items| && dec(items[i]).Err?
  {
    if items == [] then Ok([])
    else
      var head :- dec(items[0]);
      var tail :- DecodeEach(items[1..], dec);
      assert forall i :: 1 <= i < |items| ==> items[i] == items[1..][i - 1];
      Ok([head] + tail)
  }

  /** The text of serde's error for input that is not JSON at all. */
  const INVALID_JSON: DecodeError := "invalid JSON"

  /** `serde_json::from_str` into a record: parse the text, then decode the value with `dec`. */
  function ParseWith<T>(parse: Parser, text: string, dec: Json -> Result<T, DecodeError>): (r: Result<T, DecodeError>)
    ensures parse(text).None? ==> r == Err(INVALID_JSON)
    ensures parse(text).Some? ==> r == dec(parse(text).value)
  {
    if parse(text).None? then Err(INVALID_JSON) else dec(parse(text).value)
  }

  /** A field the record requires. */
  function Required<T>(o: map<string, Json>, key: string, dec: Json -> Result<T, DecodeError>): (r: Result<T, DecodeError>)
    ensures key !in o ==> r == Err(MissingField(key))
    ensures key in o ==> r == dec(o[key])
  {
    if key in o then dec(o[key]) else Err(MissingField(key))
  }

  /** An `Option<T>` field: missing and `null` both read as `None`. */
  function Optional<T>(o: map<string, Json>, key: string, dec: Json -> Result<T, DecodeError>): (r: Result<Option<T>, DecodeError>)
    ensures key !in o || o[key] == Null ==> r == Ok(None)
    ensures key in o && o[key] != Null ==> (r.Ok? <==> dec(o[key]).Ok?)
    ensures key in o && o[key] != Null && r.Ok? ==> r.value == Some(dec(o[key]).value)
  {
    if key !in o || o[key] == Null then Ok(None)
    else
      var v :- dec(o[key]);
      Ok(Some(v))
  }

  /** The discriminator of an internally tagged enum. */
  function Tag(o: map<string, Json>): (r: Result<string, DecodeError>)
    ensures r.Ok? <==> "type" in o && o["type"].Str?
    ensures r.Ok? ==> r.value == o["type"].s
  {
    Required(o, "type", AsString)
  }

  function UnknownVariant(tag: string): DecodeError
  {
    "unknown variant `" + tag + "`"
  }

  /** Serialising an `Option` field marked `skip_serializing_if = "Option::is_none"`. */
  function PutOptional<T>(o: map<string, Json>, key: string, v: Option<T>, enc: T -> Json): (r: map<string, Json>)
    ensures v.None? ==> r == o
    ensures v.Some? ==> r == o[key := enc(v.value)]
  {
    if v.Some? then o[key := enc(v.value)] else o
  }

  /** Writing one optional field leaves the reading of another as it was. */
  lemma OptionalOther<T, U>(o: map<string, Json>, key: string, v: Option<T>, enc: T -> Json,
                            other: string, dec: Json -> Result<U, DecodeError>)
    requires key != other
    ensures Optional(PutOptional(o, key, v, enc), other, dec) == Optional(o, other, dec)
  {
  }

  /** Reading back what `PutOptional` wrote gives the same option, provided
      the element encoding decodes back and never produces `null`. */
  lemma OptionalRoundTrip<T>(o: map<string, Json>, key: string, v: Option<T>, enc: T -> Json, dec: Json -> Result<T, DecodeError>)
    requires key !in o
    requires v.Some? ==> dec(enc(v.value)) == Ok(v.value) && enc(v.value) != Null
    ensures Optional(PutOptional(o, key, v, enc), key, dec) == Ok(v)
  {
  }

  /** Encoding every element and decoding the array back is the identity when each element round-trips. */
  lemma {:induction false} EachRoundTrip<T>(xs: seq<T>, enc: T -> Json, dec: Json -> Result<T, DecodeError>)
    requires forall i :: 0 <= i < |xs| ==> dec(enc(xs[i])) == Ok(xs[i])
    ensures DecodeEach(EncodeEach(xs, enc), dec) == Ok(xs)
  {
    if xs != [] {
      EachRoundTrip(xs[1..], enc, dec);
      assert EncodeEach(xs, enc)[1..] == EncodeEach(xs[1..], enc);
      assert [xs[0]] + xs[1..] == xs;
    }
  }

  function EncodeEach<T>(xs: seq<T>, enc: T -> Json): (r: seq<Json>)
    ensures |r| == |xs|
    ensures forall i :: 0 <= i < |xs| ==> r[i] == enc(xs[i])
  {
    seq(|xs|, i requires 0 <= i < |xs| => enc(xs[i]))
  }
}

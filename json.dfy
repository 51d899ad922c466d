/** The JSON layer that serde_json provides to the client, kept abstract:
    a document is a `Json` value, and a byte payload is either the text of
    such a document or bytes that do not parse as JSON at all. Printing a
    document to text and parsing text back are not modelled; everything
    above this layer works on documents.

    The helpers at the end follow serde's externally tagged representation,
    which is what `#[derive(Serialize, Deserialize)]` produces for every enum
    of the protocol: a unit variant is the string of its name, a variant with
    fields is a one-entry object mapping its name to its content. */
module Json {
  import opened Wrappers

  newtype byte = x: int | 0 <= x < 256

  /** An IEEE-754 single-precision number (Rust's `f32`), kept as its bit
      pattern: no arithmetic is done on it anywhere in the client. */
  datatype F32 = F32(bits: bv32)

  /** NaN and the infinities have every exponent bit set. serde_json cannot
      write them as JSON numbers and writes `null` instead. */
  predicate IsFinite(f: F32) {
    (f.bits >> 23) & 0xFF != 0xFF
  }

  datatype Json =
    | JNull
    | JBool(b: bool)
    | JNumber(n: F32)
    | JString(s: string)
    | JArray(items: seq<Json>)
    | JObject(fields: map<string, Json>)

  /** The bytes of a `Vec<u8>` payload field: the JSON text of a document, or
      bytes that are not JSON. */
  datatype Payload = Text(doc: Json) | Garbage(bytes: seq<byte>)

  // ----- serde's externally tagged enum representation -----

  /** How serde writes a variant that carries fields. */
  function Variant(tag: string, content: Json): Json {
    JObject(map[tag := content])
  }

  /** serde reads a unit variant from its name, or from a one-entry object
      whose value is `null`. */
  predicate IsUnitVariant(j: Json, tag: string) {
    j == JString(tag) || j == Variant(tag, JNull)
  }

  /** `j` is a one-entry object whose only key is `tag`. */
  predicate IsVariant(j: Json, tag: string) {
    j.JObject? && |j.fields| == 1 && tag in j.fields
  }

  function Content(j: Json, tag: string): Json
    requires IsVariant(j, tag)
  {
    j.fields[tag]
  }

  // ----- reading struct fields; unknown fields are ignored, as serde does -----

  /** A required field, read by `read`; a missing field fails. */
  function Field<T>(m: map<string, Json>, key: string, read: Json -> Option<T>): (r: Option<T>)
    ensures r.Some? ==> key in m && read(m[key]) == r
  {
    if key in m then read(m[key]) else None
  }

  /** An `Option<T>` field: missing or `null` reads as `None`. The outer
      `Option` is the decoding outcome, the inner one the field's value. */
  function OptionalField<T>(m: map<string, Json>, key: string, read: Json -> Option<T>): Option<Option<T>> {
    if key !in m || m[key] == JNull then Some(None)
    else
      var v :- read(m[key]);
      Some(Some(v))
  }

  function AsString(j: Json): Option<string> {
    if j.JString? then Some(j.s) else None
  }

  function AsBool(j: Json): Option<bool> {
    if j.JBool? then Some(j.b) else None
  }

  function AsNumber(j: Json): Option<F32> {
    if j.JNumber? then Some(j.n) else None
  }

  /** serde_json writes an `f32`: a number when finite, `null` otherwise. */
  function WriteF32(f: F32): (j: Json)
    ensures AsNumber(j) == (if IsFinite(f) then Some(f) else None)
  {
    if IsFinite(f) then JNumber(f) else JNull
  }

  /** A `Vec<String>`. */
  function WriteStrings(xs: seq<string>): (j: Json)
    ensures j.JArray? && |j.items| == |xs|
    ensures forall i :: 0 <= i < |xs| ==> j.items[i] == JString(xs[i])
  {
    JArray(seq(|xs|, i requires 0 <= i < |xs| => JString(xs[i])))
  }

  function ReadStrings(j: Json): (r: Option<seq<string>>)
    ensures r.Some? <==> j.JArray? && forall i :: 0 <= i < |j.items| ==> j.items[i].JString?
    ensures r.Some? ==> j == WriteStrings(r.value)
  {
    if j.JArray? && forall i :: 0 <= i < |j.items| ==> j.items[i].JString? then
      var xs := seq(|j.items|, i requires 0 <= i < |j.items| => j.items[i].s);
      assert WriteStrings(xs).items == j.items;
      Some(xs)
    else None
  }

  lemma StringsRoundTrip(xs: seq<string>)
    ensures ReadStrings(WriteStrings(xs)) == Some(xs)
  {
    var j := WriteStrings(xs);
    var r := ReadStrings(j);
    assert r.Some?;
    assert |r.value| == |xs|;
    assert forall i :: 0 <= i < |xs| ==> r.value[i] == xs[i];
    assert r.value == xs;
  }
}

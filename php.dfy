/** The few PHP value semantics the plugin relies on: a nullable string, and the
    truthiness that `empty()` and `!` give a string value. */
module Php {

  datatype Option<+T> = None | Some(value: T)

  /** `empty($s)` on a string: true for "" and for "0", and for nothing else. */
  predicate EmptyString(s: string)
  {
    s == "" || s == "0"
  }

  /** A string-or-null (or `false`, or an unset variable) value `v` is falsy in PHP,
      i.e. `empty($v)` and `!$v` hold, exactly when it is absent or an empty string. */
  predicate Falsy(v: Option<string>)
  {
    v.None? || EmptyString(v.value)
  }

  /** An entry of a PHP array keyed by strings: a string or a nested string-keyed array. */
  datatype ArrayValue = Str(s: string) | Arr(entries: map<string, string>)

  /** A PHP array whose keys are all strings (key order is not modelled). */
  type StringArray = map<string, ArrayValue>

  /** `array_merge($a, $b)` on string-keyed arrays: every key of either array is kept and
      the later array wins on a key both have. */
  function ArrayMerge(a: StringArray, b: StringArray): (r: StringArray)
    ensures r.Keys == a.Keys + b.Keys
    ensures forall k :: k in b ==> r[k] == b[k]
    ensures forall k :: k in a && k !in b ==> r[k] == a[k]
  {
    a + b
  }
}

/** The JSON library the plugin calls (`json_decode`, `wp_json_encode`), kept abstract:
    decoded values are of an uninterpreted type and the codec is a parameter, so every
    property proved here holds for whatever parser and serialiser PHP supplies. */
module JsonCodec {
  import opened Php

  /** A decoded JSON value. Equality is PHP's `===` on decoded values. */
  type Json(==, !new)

  datatype Codec = Codec(
    /** `json_decode($s)`: objects as stdClass; None when json_last_error() is set. */
    decode: string -> Option<Json>,
    /** `json_decode($s, true)`: objects as associative arrays; None on error. */
    decodeAssoc: string -> Option<Json>,
    /** `wp_json_encode($j)` with default flags (slashes escaped). */
    encode: Json -> string,
    /** `wp_json_encode($j, JSON_PRETTY_PRINT | JSON_UNESCAPED_SLASHES)`. */
    prettyEncode: Json -> string,
    /** The PHP `null` value; json_decode returns it when decoding fails. */
    nullValue: Json)

  /** The value `json_decode($s, true)` evaluates to, failure included. */
  function PhpDecodeAssoc(c: Codec, s: string): (j: Json)
    ensures c.decodeAssoc(s).None? ==> j == c.nullValue
    ensures c.decodeAssoc(s).Some? ==> j == c.decodeAssoc(s).value
  {
    match c.decodeAssoc(s)
    case Some(d) => d
    case None => c.nullValue
  }

  /** Pretty-printing a value the assoc decoder returned gives back text that the assoc
      decoder turns into the same value. */
  ghost predicate PrettyRoundTrips(c: Codec)
  {
    forall s :: c.decodeAssoc(s).Some? ==>
      c.decodeAssoc(c.prettyEncode(c.decodeAssoc(s).value)) == c.decodeAssoc(s)
  }

  /** Both decoding modes run one parser, and object mode rejects a little more (an
      object key starting with "\u0000" is no valid property name): text the assoc
      decoder rejects is rejected by the object decoder too. */
  ghost predicate ObjectModeRejectsMalformed(c: Codec)
  {
    forall s :: c.decodeAssoc(s).None? ==> c.decode(s).None?
  }
}

/** Decoded JSON values, the shape of what `json.loads` returns and `to_dict` builds. */
module Json {
  import opened Wrappers

  /** A JSON value; objects are maps, so the key order of a Python dict is not represented. */
  datatype Json =
    | JNull
    | JBool(b: bool)
    | JInt(i: int)
    | JReal(r: real)
    | JStr(s: string)
    | JArr(items: seq<Json>)
    | JObj(fields: map<string, Json>)

  /** A Python `str | None` as JSON: `None` becomes `null`. */
  function OptStr(o: Option<string>): Json {
    match o
    case None => JNull
    case Some(s) => JStr(s)
  }

  /** The inverse of `OptStr`, failing on anything but a string or `null`. */
  function AsOptStr(j: Json): Option<Option<string>> {
    match j
    case JNull => Some(None)
    case JStr(s) => Some(Some(s))
    case _ => None
  }

  /** The string under `key`, if there is one. */
  function StrAt(m: map<string, Json>, key: string): Option<string> {
    if key in m && m[key].JStr? then Some(m[key].s) else None
  }

  /** The string or `null` under `key`, if there is one. */
  function OptStrAt(m: map<string, Json>, key: string): Option<Option<string>> {
    if key in m then AsOptStr(m[key]) else None
  }

  /** A list serialised element-wise, as a Python list comprehension over `to_dict` does. */
  function EncodeList<T>(xs: seq<T>, enc: T -> Json): (r: seq<Json>)
    ensures |r| == |xs|
    ensures forall i :: 0 <= i < |xs| ==> r[i] == enc(xs[i])
  {
    seq(|xs|, i requires 0 <= i < |xs| => enc(xs[i]))
  }

  /** Decodes every element with `dec`, failing if any element fails. */
  function DecodeList<T>(items: seq<Json>, dec: Json -> Option<T>): (r: Option<seq<T>>)
    ensures r.Some? ==> |r.value| == |items|
    decreases |items|
  {
    if items == [] then Some([])
    else
      match dec(items[0])
      case None => None
      case Some(x) =>
        match DecodeList(items[1..], dec)
        case None => None
        case Some(xs) => Some([x] + xs)
  }

  /** Element-wise encoding is undone by element-wise decoding when each element round-trips. */
  lemma {:induction false} DecodeEncodeList<T>(xs: seq<T>, enc: T -> Json, dec: Json -> Option<T>)
    requires forall i :: 0 <= i < |xs| ==> dec(enc(xs[i])) == Some(xs[i])
    ensures DecodeList(EncodeList(xs, enc), dec) == Some(xs)
    decreases |xs|
  {
    if xs != [] {
      DecodeEncodeList(xs[1..], enc, dec);
      assert EncodeList(xs, enc)[1..] == EncodeList(xs[1..], enc);
      assert [xs[0]] + xs[1..] == xs;
    }
  }

  /** A list of strings as a JSON array. */
  function StrList(xs: seq<string>): Json {
    JArr(EncodeList(xs, (s: string) => JStr(s)))
  }

  /** The inverse of `StrList` on a decoded element. */
  function AsStr(j: Json): Option<string> {
    if j.JStr? then Some(j.s) else None
  }
}

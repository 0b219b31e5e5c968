/** Bytes and the JSON document tree.

    Rendering a tree to bytes and parsing bytes to a tree belong to Go's
    encoding/json and are foreign here; what the model keeps is the tree, with
    object members in the order encoding/json writes them (struct field order). */
module Json {
  import opened Wrappers

  newtype byte = x: int | 0 <= x < 256

  type Bytes = seq<byte>

  datatype Json =
    | JNull
    | JBool(b: bool)
    | JString(s: string)
    | JArray(items: seq<Json>)
    | JObject(members: seq<(string, Json)>)

  /** The value of member `key`, looking from the front. Every object the model
      encodes has distinct keys, so the choice of duplicate does not matter. */
  function Lookup(members: seq<(string, Json)>, key: string): (r: Option<Json>)
    ensures r.None? <==> forall i :: 0 <= i < |members| ==> members[i].0 != key
    ensures r.Some? ==> exists i :: 0 <= i < |members| && members[i] == (key, r.value)
  {
    if members == [] then None
    else if members[0].0 == key then Some(members[0].1)
    else
      var r := Lookup(members[1..], key);
      assert r.Some? ==> exists i :: 0 <= i < |members[1..]| && members[1..][i] == (key, r.value);
      r
  }

  /** Looking a key up in two runs of members put together finds it in the
      first run if it is there, and in the second otherwise. */
  lemma {:induction false} LookupAppend(a: seq<(string, Json)>, b: seq<(string, Json)>, key: string)
    ensures Lookup(a + b, key) == if Lookup(a, key).Some? then Lookup(a, key) else Lookup(b, key)
  {
    if a != [] {
      assert (a + b)[0] == a[0] && (a + b)[1..] == a[1..] + b;
      LookupAppend(a[1..], b, key);
    } else {
      assert a + b == b;
    }
  }

  /** A Go `string` field read by encoding/json: an absent member or `null`
      leaves the zero value "", a string sets it, anything else is a type error. */
  function StringMember(members: seq<(string, Json)>, key: string): Option<string>
  {
    match Lookup(members, key)
    case None => Some("")
    case Some(JNull) => Some("")
    case Some(JString(s)) => Some(s)
    case Some(_) => None
  }

  /** A Go `*string` field: absent or `null` is nil, a string is a pointer to it. */
  function StringPointerMember(members: seq<(string, Json)>, key: string): Option<Option<string>>
  {
    match Lookup(members, key)
    case None => Some(None)
    case Some(JNull) => Some(None)
    case Some(JString(s)) => Some(Some(s))
    case Some(_) => None
  }

  /** `[]string` written as a JSON array of strings. */
  function EncodeStrings(xs: seq<string>): (r: seq<Json>)
    ensures |r| == |xs|
  {
    if xs == [] then [] else [JString(xs[0])] + EncodeStrings(xs[1..])
  }

  function DecodeStrings(items: seq<Json>): Option<seq<string>>
  {
    if items == [] then Some([])
    else match items[0]
      case JString(s) =>
        var rest :- DecodeStrings(items[1..]);
        Some([s] + rest)
      case _ => None
  }

  lemma {:induction false} StringsRoundTrip(xs: seq<string>)
    ensures DecodeStrings(EncodeStrings(xs)) == Some(xs)
  {
    if xs != [] {
      StringsRoundTrip(xs[1..]);
      var items := EncodeStrings(xs);
      assert items[0] == JString(xs[0]) && items[1..] == EncodeStrings(xs[1..]);
      assert [xs[0]] + xs[1..] == xs;
    }
  }

  /** A `[]string` field tagged omitempty: absent or `null` is the nil slice,
      an array of strings is decoded element by element. */
  function StringsMember(members: seq<(string, Json)>, key: string): Option<seq<string>>
  {
    match Lookup(members, key)
    case None => Some([])
    case Some(JNull) => Some([])
    case Some(JArray(items)) => DecodeStrings(items)
    case Some(_) => None
  }
}

/**
 * JSON values as the server exchanges them with the remote model.
 * An object is a Python dict: one value per key. Serialising (json.dumps) and
 * parsing (json.loads) are not modelled; payloads and replies are these values.
 */
module Json {
  import opened Wrappers

  datatype Json =
    | JNull
    | JBool(b: bool)
    | JNum(n: int)
    | JReal(r: real)
    | JStr(s: string)
    | JArr(items: seq<Json>)
    | JObj(fields: map<string, Json>)

  /** `j.get(key)` when `j` is a dict; None when the key is missing or `j` is no object. */
  function Member(j: Json, key: string): Option<Json>
  {
    if j.JObj? && key in j.fields then Some(j.fields[key]) else None
  }

  /** `j[outer][inner]`, None when either step is missing. */
  function Nested(j: Json, outer: string, inner: string): Option<Json>
  {
    match Member(j, outer)
    case Some(o) => Member(o, inner)
    case None => None
  }

  /** The keys of the object found under `key`, empty when there is none. */
  function KeysAt(j: Json, key: string): set<string>
  {
    match Member(j, key)
    case Some(JObj(fields)) => fields.Keys
    case _ => {}
  }

  /** A Python list of str, as a JSON array. */
  function Strings(ss: seq<string>): seq<Json>
  {
    seq(|ss|, i requires 0 <= i < |ss| => JStr(ss[i]))
  }

  /** The list of str a JSON array of strings stands for. */
  function StringsOf(items: seq<Json>): (r: Option<seq<string>>)
    ensures r.Some? ==> |r.value| == |items|
    ensures r.Some? <==> forall i | 0 <= i < |items| :: items[i].JStr?
  {
    if items == [] then Some([])
    else if !items[0].JStr? then None
    else match StringsOf(items[1..])
      case None => None
      case Some(rest) => Some([items[0].s] + rest)
  }

  /** The remote model reads back exactly the list of str that was put into the payload. */
  lemma {:induction false} StringsRoundTrip(ss: seq<string>)
    ensures StringsOf(Strings(ss)) == Some(ss)
  {
    if ss != [] {
      assert Strings(ss)[1..] == Strings(ss[1..]);
      StringsRoundTrip(ss[1..]);
      assert [ss[0]] + ss[1..] == ss;
    }
  }
}

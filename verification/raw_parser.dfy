/**
 * RawParser: hands back the payload minus its first element, after
 * unwrapping a dict envelope's `data` entry.
 */
module RawParser {
  import opened Values

  /** `payload.get('data', payload)` when the payload is a dict, else the payload itself. */
  function Unwrap(payload: Json): Json
  {
    if payload.JObject? && "data" in payload.fields then payload.fields["data"] else payload
  }

  /** Python's `s[1:]`: never fails, and is empty for an empty sequence. */
  function DropFirst<T>(s: seq<T>): seq<T>
  {
    if s == [] then [] else s[1..]
  }

  /** `dst` is `src` shifted left by one: one element fewer (none for an empty source), `dst[i] == src[i+1]`. */
  ghost predicate ShiftedByOne<T>(src: seq<T>, dst: seq<T>)
  {
    |dst| == (if src == [] then 0 else |src| - 1) &&
    forall i :: 0 <= i < |dst| ==> dst[i] == src[i + 1]
  }

  /** RawParser.parse: unwrap, then slice off the first element. */
  function Parse(payload: Json): (r: ParseResult<Json>)
    ensures r.Data? || r.Error?
    ensures r.Error? <==> !(Unwrap(payload).JList? || Unwrap(payload).JStr?)
    ensures r.Error? ==> r.e == NotSliceable(Unwrap(payload))
    ensures Unwrap(payload).JList? ==>
              r.Data? && r.v.JList? && ShiftedByOne(Unwrap(payload).items, r.v.items)
    ensures Unwrap(payload).JStr? ==>
              r.Data? && r.v.JStr? && ShiftedByOne(Unwrap(payload).s, r.v.s)
  {
    match Unwrap(payload)
    case JList(xs) => Data(JList(DropFirst(xs)))
    case JStr(s) => Data(JStr(DropFirst(s)))
    case other => Error(NotSliceable(other))
  }

  /** A dict without `data` is sliced itself, which Python refuses. */
  lemma EnvelopeWithoutDataFails(m: map<string, Json>)
    requires "data" !in m
    ensures Parse(JObject(m)) == Error(NotSliceable(JObject(m)))
  {
  }

  /** `{"data": [1, 2, 3]}` parses to `[2, 3]`. */
  lemma EnvelopeExample()
    ensures Parse(JObject(map["data" := JList([JNum(1), JNum(2), JNum(3)])]))
            == Data(JList([JNum(2), JNum(3)]))
  {
  }
}

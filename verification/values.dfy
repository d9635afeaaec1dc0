/**
 * The Python values that flow through tweepy's response parsers, and the
 * outcomes a parse call can have.
 *
 * One datatype, `Json`, stands for every value a parser receives or hands
 * on: the transport layer's payload (text, bytes or a dict envelope), the
 * value `json.loads` decodes, and the sentinels `[]`, `{}` and `None` that
 * the parsers return. A `JStr` stands for both `str` and `bytes`: the
 * parsers only slice them and test them for emptiness, which the two types
 * do alike.
 */
module Values {

  datatype Option<+T> = None | Some(value: T)

  datatype Json =
    | JNull
    | JBool(b: bool)
    | JNum(n: int)
    | JStr(s: string)
    | JList(items: seq<Json>)
    | JObject(fields: map<string, Json>)

  /** `json.loads`: text either decodes to a value or raises (`None` here). */
  type Decoder = string -> Option<Json>

  /** Python's truth value of a decoded value: `None`, `False`, `0`, `""`, `[]`, `{}` are falsy. */
  predicate Truthy(v: Json) {
    match v
    case JNull => false
    case JBool(b) => b
    case JNum(n) => n != 0
    case JStr(s) => s != ""
    case JList(xs) => xs != []
    case JObject(m) => m != map[]
  }

  /**
   * Python's `key in items` on a decoded list, for the string keys the
   * parsers look for: a left-to-right scan comparing with `==`, under
   * which a string equals only the same string.
   */
  function Contains(items: seq<Json>, x: Json): bool
  {
    if items == [] then false
    else items[0] == x || Contains(items[1..], x)
  }

  /** The scan answers exactly the membership question. */
  lemma {:induction false} ContainsIsMembership(items: seq<Json>, x: Json)
    ensures Contains(items, x) <==> x in items
  {
    if items != [] {
      ContainsIsMembership(items[1..], x);
      assert items == [items[0]] + items[1..];
    }
  }

  /** A pagination cursor: one token, or the pair (previous, next) in that order. */
  datatype Cursor = Single(token: Json) | Pair(previous: Json, next: Json)

  /**
   * The truth value of the `cursors` variable in ModelParser.parse: a
   * single token is as truthy as its value, a pair is a non-empty tuple.
   */
  predicate CursorTruthy(c: Option<Cursor>) {
    match c
    case None => false
    case Some(Single(x)) => Truthy(x)
    case Some(Pair(_, _)) => true
  }

  /** The exceptions a parse call can raise. */
  datatype Failure =
      /** TweepyException: the requested model type is not on the factory. */
    | NoModelForType(payloadType: string)
      /** TweepyException: a model constructor raised KeyError on this JSON. */
    | UnableToParse(json: Json)
      /** TypeError: a list was indexed with a string key. */
    | StrIndexOnList(key: string)
      /** TypeError (KeyError from Python 3.12 on a dict): `payload[1:]` on a value that has no slicing. */
    | NotSliceable(value: Json)
      /** Any other exception a model constructor raised, by its class name; ModelParser lets it through. */
    | Propagated(exception: string)

  predicate IsTweepyException(f: Failure) {
    f.NoModelForType? || f.UnableToParse?
  }

  /**
   * What a parse call returns: a value, a value with its cursor (the
   * Python pair `(data, cursors)`), one of the literal results `[]`, `{}`
   * and `None`, or the exception it raises.
   */
  datatype ParseResult<V> =
    | Data(v: V)
    | DataWithCursor(v: V, c: Cursor)
    | EmptyList
    | EmptyDict
    | NoneResult
    | Error(e: Failure)

  const NoModelPrefix: string := "No model for this payload type: "

  /** The message of the TweepyException raised for an unknown model type. */
  function NoModelMessage(payloadType: string): (msg: string)
    ensures |msg| == |NoModelPrefix| + |payloadType|
    ensures msg[..|NoModelPrefix|] == NoModelPrefix
    ensures msg[|NoModelPrefix|..] == payloadType
  {
    NoModelPrefix + payloadType
  }

  /** Distinct type names give distinct messages: the message identifies the name. */
  lemma NoModelMessageIdentifiesType(t1: string, t2: string)
    ensures NoModelMessage(t1) == NoModelMessage(t2) ==> t1 == t2
  {
  }
}

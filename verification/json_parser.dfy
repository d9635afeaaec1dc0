/**
 * JSONParser: decodes the payload, then looks for pagination cursors.
 *
 * `Parse` is the code as written: the cursor test asks whether the decoded
 * value is a list, so the cursor keys are looked up as list elements and
 * then used as list indices, which Python refuses; and when no cursor
 * branch returns, the result is `None`, never the decoded value.
 * `ParseIntended` is the same procedure with the test on a dict and the
 * decoded value returned at the end.
 */
module JsonParser {
  import opened Values

  /** The cursor branch of Parse on a decoded list: each branch's `json[key]` raises. */
  function ListCursors(items: seq<Json>): ParseResult<Json>
  {
    if Contains(items, JStr("next")) then
      Error(StrIndexOnList("next"))
    else if Contains(items, JStr("next_cursor")) then
      // the tuple (json['previous_cursor'], json['next_cursor']) fails on its first component
      if Contains(items, JStr("previous_cursor")) then Error(StrIndexOnList("previous_cursor"))
      else Error(StrIndexOnList("next_cursor"))
    else
      NoneResult
  }

  /** JSONParser.parse as written. */
  function Parse(payload: string, returnCursors: bool, decode: Decoder): (r: ParseResult<Json>)
    // a falsy payload gives [] without decoding
    ensures payload == [] ==> r == EmptyList
    // a decode failure gives {} and never raises
    ensures payload != [] && decode(payload).None? ==> r == EmptyDict
    // the decoded value itself is never returned
    ensures !r.Data? && !r.DataWithCursor?
    // the only exception is a string index on a decoded list, asked for by return_cursors
    ensures r.Error? ==>
              returnCursors && payload != [] && decode(payload).Some? && decode(payload).value.JList? &&
              r.e.StrIndexOnList?
    // without return_cursors every decoded value gives None
    ensures !returnCursors && payload != [] && decode(payload).Some? ==> r == NoneResult
  {
    if payload == [] then EmptyList
    else
      match decode(payload)
      case None => EmptyDict
      case Some(json) =>
        if returnCursors && json.JList? then ListCursors(json.items) else NoneResult
  }

  /**
   * No cursor branch taken: without return_cursors, on a value that is
   * not a list, or on a list holding neither "next" nor "next_cursor",
   * the result is None.
   */
  lemma NoCursorBranchGivesNone(payload: string, returnCursors: bool, decode: Decoder, json: Json)
    requires payload != [] && decode(payload) == Some(json)
    requires !returnCursors || !json.JList? ||
             (JStr("next") !in json.items && JStr("next_cursor") !in json.items)
    ensures Parse(payload, returnCursors, decode) == NoneResult
  {
    if returnCursors && json.JList? {
      ContainsIsMembership(json.items, JStr("next"));
      ContainsIsMembership(json.items, JStr("next_cursor"));
    }
  }

  /**
   * Cursor precedence on a decoded list with return_cursors: "next" is
   * tested first, then "next_cursor", and within that branch
   * "previous_cursor" is indexed first. The key in the TypeError names the
   * branch taken.
   */
  lemma CursorPrecedence(payload: string, decode: Decoder, items: seq<Json>)
    requires payload != [] && decode(payload) == Some(JList(items))
    ensures JStr("next") in items ==>
              Parse(payload, true, decode) == Error(StrIndexOnList("next"))
    ensures JStr("next") !in items && JStr("next_cursor") in items && JStr("previous_cursor") in items ==>
              Parse(payload, true, decode) == Error(StrIndexOnList("previous_cursor"))
    ensures JStr("next") !in items && JStr("next_cursor") in items && JStr("previous_cursor") !in items ==>
              Parse(payload, true, decode) == Error(StrIndexOnList("next_cursor"))
    ensures JStr("next") !in items && JStr("next_cursor") !in items ==>
              Parse(payload, true, decode) == NoneResult
  {
    ContainsIsMembership(items, JStr("next"));
    ContainsIsMembership(items, JStr("next_cursor"));
    ContainsIsMembership(items, JStr("previous_cursor"));
  }

  /** The cursor branch on a decoded dict, as the cursor keys call for. */
  function ObjectCursors(m: map<string, Json>): ParseResult<Json>
  {
    if "next" in m then
      DataWithCursor(JObject(m), Single(m["next"]))
    else if "next_cursor" in m then
      if "previous_cursor" in m then DataWithCursor(JObject(m), Pair(m["previous_cursor"], m["next_cursor"]))
      else DataWithCursor(JObject(m), Single(m["next_cursor"]))
    else
      Data(JObject(m))
  }

  /** JSONParser.parse with the cursor test on a dict and the decoded value returned. */
  function ParseIntended(payload: string, returnCursors: bool, decode: Decoder): (r: ParseResult<Json>)
    ensures payload == [] ==> r == EmptyList
    ensures payload != [] && decode(payload).None? ==> r == EmptyDict
    // a decoded value always comes back, unchanged, and nothing raises
    ensures payload != [] && decode(payload).Some? ==>
              (r.Data? || r.DataWithCursor?) && r.v == decode(payload).value
    // a cursor is attached only on request and only to a dict
    ensures r.DataWithCursor? ==> returnCursors && r.v.JObject?
  {
    if payload == [] then EmptyList
    else
      match decode(payload)
      case None => EmptyDict
      case Some(json) =>
        if returnCursors && json.JObject? then ObjectCursors(json.fields) else Data(json)
  }

  /**
   * Cursor precedence on a decoded dict: "next" wins over "next_cursor";
   * with "previous_cursor" present the cursor is the pair (previous, next)
   * in that order; with no cursor key the dict comes back alone.
   */
  lemma IntendedCursorPrecedence(payload: string, decode: Decoder, m: map<string, Json>)
    requires payload != [] && decode(payload) == Some(JObject(m))
    ensures "next" in m ==>
              ParseIntended(payload, true, decode) == DataWithCursor(JObject(m), Single(m["next"]))
    ensures "next" !in m && "next_cursor" in m && "previous_cursor" in m ==>
              ParseIntended(payload, true, decode)
              == DataWithCursor(JObject(m), Pair(m["previous_cursor"], m["next_cursor"]))
    ensures "next" !in m && "next_cursor" in m && "previous_cursor" !in m ==>
              ParseIntended(payload, true, decode) == DataWithCursor(JObject(m), Single(m["next_cursor"]))
    ensures "next" !in m && "next_cursor" !in m ==>
              ParseIntended(payload, true, decode) == Data(JObject(m))
  {
  }

  /**
   * The list test drops every cursor a dict carries: `{"next": t}` with
   * return_cursors gives None as written, and the dict with cursor `t`
   * as intended.
   */
  lemma ObjectCursorIgnored(payload: string, decode: Decoder, m: map<string, Json>)
    requires payload != [] && decode(payload) == Some(JObject(m)) && "next" in m
    ensures Parse(payload, true, decode) == NoneResult
    ensures ParseIntended(payload, true, decode) == DataWithCursor(JObject(m), Single(m["next"]))
  {
  }
}

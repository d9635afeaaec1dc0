# tweepy response parsers, modelled in Dafny

This project models the response-parsing layer of the tweepy Twitter client
(`tweepy/parsers.py`). That layer turns a response payload into data, and
optionally into a pagination cursor, using three strategies:

- **RawParser** unwraps a dict envelope's `data` entry and returns the payload
  without its first element (`raw_parser.dfy`).
- **JSONParser** decodes the payload. When cursors are asked for, it looks for
  `next`, then `next_cursor`, and pairs `next_cursor` with `previous_cursor`
  when that key is there too (`json_parser.dfy`).
- **ModelParser** looks up a model by name on a model factory, decodes the
  payload with JSONParser's parse, builds the result with one of the model's
  two constructors, turns a constructor's `KeyError` into a `TweepyException`,
  and attaches the cursor when asked (`model_parser.dfy`).

`values.dfy` holds what the three share. It defines one `Json` datatype for
every Python value the parsers pass around: payloads, decoded JSON, and the
literal results `[]`, `{}` and `None`. It also defines the cursor, the
exceptions a call can raise, and the result datatype
`Data | DataWithCursor | EmptyList | EmptyDict | NoneResult | Error`.

The parsers hold no state, so the whole model is functions and lemmas. The
only assignment, `self.model_factory` in `ModelParser.__init__`, becomes the
immutable `Config` value that `ModelParser.Init` builds.

Two things are parameters of the model because their code is not part of it:

- `json.loads` is a `Decoder`, a function from text to `Some(value)` or
  `None` (raised).
- The model factory is a map from type names to a pair of constructors. Each
  constructor maps decoded JSON to `Built(obj)`, `KeyError`, or
  `Raised(name)` for any other exception, which ModelParser lets through. The model type
  `M` is a type parameter.

The model follows the code as written, including the four places where the
code does something other than what its names and comments suggest:

- The cursor test asks whether the decoded value is a *list*. So `'next' in
  json` is list membership. Each cursor branch then indexes the list with a
  string, which raises a `TypeError` (`StrIndexOnList`). The key in that error
  shows which branch was taken, so the precedence order can be observed.
- When no cursor branch returns, the result is `None`. That includes every
  call without `return_cursors`. So JSONParser never returns the decoded
  value, and ModelParser's constructors only ever receive `[]`, `{}` or
  `None`.
- `payload_list=True` calls the single-object constructor `parse`, and
  `False` calls `parse_list`.
- A factory passed to `ModelParser(...)` is replaced by the default
  `ModelFactory`. Passing no factory leaves `model_factory` as `None`, so
  every parse that names a model then fails.

Each of these behaviours also has a corrected version with its intended
property proved (see "## Findings").

Two consequences of the code are worth stating plainly:

- RawParser on an empty list or string returns an empty one, because
  Python's `s[1:]` never fails.
- JSONParser never returns a cursor as written. A decoded list that contains
  the string `"next"` or `"next_cursor"` raises a `TypeError`, and a decoded
  dict such as `{"next": "abc"}` gives `None`.

## Model

| member | source | states |
|---|---|---|
| `Values.ContainsIsMembership` | tweepy/parsers.py:47-50 | Python's left-to-right `key in list` scan, for the string keys the parsers look for, is true exactly when the key is an element of the list |
| `Values.NoModelMessage` | tweepy/parsers.py:74-76 | the unknown-type message starts with the fixed prefix and ends with the exact type name, and has exactly the length of the two |
| `Values.NoModelMessageIdentifiesType` | tweepy/parsers.py:74-76 | a fact about the message format, not about the parser: two type names with the same unknown-type message are the same name |
| `RawParser.Parse` | tweepy/parsers.py:27-30 | a dict with `data` is replaced by that entry, any other payload is used as is; a list or string comes back with one element fewer (none when empty) and `result[i] == source[i+1]`; anything else raises |
| `RawParser.EnvelopeWithoutDataFails` | tweepy/parsers.py:28-30 | a dict without `data` is sliced itself and raises |
| `RawParser.EnvelopeExample` | tweepy/parsers.py:28-30 | `{"data": [1, 2, 3]}` parses to `[2, 3]` |
| `JsonParser.Parse` | tweepy/parsers.py:37-55 | an empty payload gives `[]` with no decode; a decode failure gives `{}`; the decoded value is never returned; the only exception is a string index on a decoded list asked for by `return_cursors`; without `return_cursors` the result is `None` |
| `JsonParser.NoCursorBranchGivesNone` | tweepy/parsers.py:46-55 | without `return_cursors`, on a non-list, or on a list holding neither `"next"` nor `"next_cursor"`, the result is `None` |
| `JsonParser.CursorPrecedence` | tweepy/parsers.py:46-54 | on a decoded list with `return_cursors`: `"next"` is tested before `"next_cursor"`, and `previous_cursor` is indexed before `next_cursor`; each branch raises a `TypeError` naming its key |
| `JsonParser.ParseIntended` | tweepy/parsers.py:37-55 | corrected parse: a decoded value always comes back unchanged and nothing raises; a cursor is attached only on request and only to a dict |
| `JsonParser.IntendedCursorPrecedence` | tweepy/parsers.py:46-54 | corrected parse on a dict: `next` wins; otherwise `next_cursor` comes back alone, or as the pair (`previous_cursor`, `next_cursor`) in that order; with no key, only the dict comes back |
| `JsonParser.ObjectCursorIgnored` | tweepy/parsers.py:46-55 | a dict carrying `next` gives `None` as written, and the dict with its `next` cursor as corrected |
| `ModelParser.Init` | tweepy/parsers.py:60-65 | `model_factory` is the default factory exactly when a factory was passed, and `None` otherwise |
| `ModelParser.InitIntended` | tweepy/parsers.py:60-65 | corrected constructor: there is always a factory; it is the one passed, else the default |
| `ModelParser.Lookup` | tweepy/parsers.py:72-76 | a model is found exactly when there is a factory and the name is on it, and the model found is the one the name maps to |
| `ModelParser.ConstructIntended` | tweepy/parsers.py:84-88 | corrected dispatch: the list flag calls `parse_list` and its absence calls `parse` |
| `ModelParser.Attach` | tweepy/parsers.py:94-97 | `(result, cursors)` comes back exactly when cursors were asked for and the cursor is truthy; otherwise `result` alone |
| `ModelParser.Parse` | tweepy/parsers.py:67-97 | no type gives `[]`; an unknown type raises `NoModelForType` with that name, whatever the payload; `UnableToParse` and a constructor's other exceptions come only after a successful lookup; a decoding exception passes through unchanged; a cursor comes only with `return_cursors` |
| `ModelParser.ParseIntended` | tweepy/parsers.py:67-97 | corrected parse: the same lookup outcomes; decoding raises nothing, so only the two TweepyExceptions and a constructor's own non-KeyError exception come out; `UnableToParse` and a constructor's exception come only after a successful lookup |
| `ModelParser.NoTypeIgnoresPayload` | tweepy/parsers.py:69-71 | without a type the result is `[]`, and it does not depend on the payload or the decoder |
| `ModelParser.UnknownTypeNamed` | tweepy/parsers.py:69-76 | a name missing from the factory, or a missing factory, raises the error carrying that exact name, whatever the payload |
| `ModelParser.DispatchAndErrorMapping` | tweepy/parsers.py:78-97 | on every payload whose decoding does not raise, the constructor gets JSONParser's result (`[]` for an empty payload, `{}` for a decode failure, `None` otherwise); `payload_list` calls `parse` and its absence calls `parse_list`; a `KeyError` becomes `UnableToParse` carrying that JSON; other exceptions pass through; a built result comes back alone |
| `ModelParser.IntendedDispatchAndErrorMapping` | tweepy/parsers.py:78-97 | corrected parse on every payload: the constructor gets the decoded value (`[]` or `{}` when there is none); `payload_list` calls `parse_list` and its absence calls `parse`; a `KeyError` becomes `UnableToParse` carrying that JSON; other exceptions pass through; a built result comes back as `Attach` gives it: with JSONParser's cursor exactly when cursors were asked for and the cursor is truthy, and alone otherwise |
| `ModelParser.AsWrittenNeverAttachesCursor` | tweepy/parsers.py:78-97 | as written, no cursor is ever attached, and a constructor's failure always carries `[]`, `{}` or `None` |
| `ModelParser.DefaultParserRejectsEveryType` | tweepy/parsers.py:60-76 | a parser built without a factory raises `NoModelForType` for every model name |
| `ModelParser.SuppliedFactoryIgnored` | tweepy/parsers.py:62-63 | parsers built from any two supplied factories are identical |
| `ModelParser.IntendedDefaultFactoryUsed` | tweepy/parsers.py:60-65 | corrected constructor: a parser built without a factory finds every type the default factory has |
| `ModelParser.ListFlagSwapped` | tweepy/parsers.py:84-88 | the dispatch as written equals the corrected dispatch with the list flag negated |
| `ModelParser.IntendedCursorReturned` | tweepy/parsers.py:67-97 | for a dict with a truthy `next`: the corrected parse returns the built object with that cursor; as written, `parse_list` is called on `None` and its outcome comes back without a cursor |

## Left out

- The base class `Parser.parse`, which only raises `NotImplementedError`, is not modelled.
- `payload_format = 'json'` is a tag for the transport layer. It has no behaviour here.
- The internals of `json.loads` are not modelled; it is the `Decoder` parameter. Floating-point numbers are not in `Json`.
- `ModelFactory` and the model classes' `parse` and `parse_list` are not part of this model. They are uninterpreted constructors in a map. The `api` argument they receive is folded into them.
- `getattr` on the factory is modelled as map lookup. Python attributes of the factory object, or of `None`, that are not models are not modelled.
- An exception a model constructor raises other than `KeyError` is recorded by its class name only (`Propagated`); its message and arguments are not modelled.
- The text of the "Unable to parse response payload" message is not modelled, because it needs Python's `str()` of the JSON. The error carries the JSON value itself.
- JSONParser's payload is modelled as text. A `None` payload is falsy like the empty text, so it behaves the same way.
- A `JList` stands for both lists and tuples, and a `JStr` for both `str` and `bytes`. Only their slicing and emptiness matter here.
- Slicing a dict raises `TypeError` before Python 3.12 and `KeyError` from 3.12 on. The model records both as one failure, `NotSliceable`.
- Python truthiness is modelled only for decoded values and cursors (`Truthy`, `CursorTruthy`) and for the empty payload.

## Findings

| source | as written | input that shows it | evidently intended | confidence | as-written member | corrected member |
|---|---|---|---|---|---|---|
| tweepy/parsers.py:46-55 | cursor keys are looked for on a decoded list, and without a matching branch the result is `None` | payload `{"next": "abc"}` with `return_cursors=True` gives `None`; payload `["next"]` raises `TypeError` | test for a dict, return `(json, cursor)` for the matching branch, and return the decoded value otherwise | high for the dict test, medium for the final return; not executed | `JsonParser.ObjectCursorIgnored` | `JsonParser.ParseIntended` |
| tweepy/parsers.py:84-88 | `payload_list=True` calls `parse` and `False` calls `parse_list` | any known type with `payload_list=True` | the list flag selects `parse_list` | high; not executed | `ModelParser.ListFlagSwapped` | `ModelParser.ConstructIntended` |
| tweepy/parsers.py:62-65 | a supplied factory is replaced by the default one, and no argument leaves `model_factory` as `None` | `ModelParser()` followed by a parse with any model name as `payload_type` raises "No model for this payload type" | use the supplied factory, else the default `ModelFactory` | high; not executed | `ModelParser.DefaultParserRejectsEveryType` | `ModelParser.InitIntended` |

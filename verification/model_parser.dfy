/**
 * ModelParser: decodes the payload with JSONParser's parse, builds typed
 * objects from it with a model looked up by name on a model factory, and
 * attaches the cursor when asked.
 *
 * A model factory is a map from type names to models; a model is its two
 * constructors, `parse` (one object) and `parse_list` (a list of objects),
 * each of which builds a value of the model type `M`, raises KeyError
 * (which ModelParser catches), or raises some other exception (which it
 * lets through). The `api` argument reaches the constructors unchanged
 * and is folded into them.
 */
module ModelParser {
  import opened Values
  import JsonParser

  /** A constructor call: a built object, a KeyError, or any other exception, by its class name. */
  datatype Constructed<M> = Built(obj: M) | KeyError | Raised(exception: string)

  datatype Model<M> = Model(parse: Json -> Constructed<M>, parseList: Json -> Constructed<M>)

  type Factory<M> = map<string, Model<M>>

  /** A ModelParser instance: its `model_factory` attribute, `None` or a factory. */
  datatype Config<M> = Config(modelFactory: Option<Factory<M>>)

  /**
   * ModelParser.__init__ as written: a supplied factory is replaced by the
   * default one, and leaving the argument out leaves no factory at all.
   */
  function Init<M>(modelFactory: Option<Factory<M>>, defaultFactory: Factory<M>): (p: Config<M>)
    ensures p.modelFactory.Some? <==> modelFactory.Some?
    ensures p.modelFactory.Some? ==> p.modelFactory.value == defaultFactory
  {
    if modelFactory.Some? then Config(Some(defaultFactory)) else Config(None)
  }

  /** ModelParser.__init__ as intended: the supplied factory if there is one, else the default. */
  function InitIntended<M>(modelFactory: Option<Factory<M>>, defaultFactory: Factory<M>): (p: Config<M>)
    ensures p.modelFactory.Some?
    ensures modelFactory.Some? ==> p.modelFactory == modelFactory
    ensures modelFactory.None? ==> p.modelFactory == Some(defaultFactory)
  {
    match modelFactory
    case Some(f) => Config(Some(f))
    case None => Config(Some(defaultFactory))
  }

  /** `getattr(self.model_factory, payload_type)`: fails on a missing name and on a missing factory. */
  function Lookup<M>(p: Config<M>, payloadType: string): (r: Option<Model<M>>)
    ensures r.Some? <==> p.modelFactory.Some? && payloadType in p.modelFactory.value
    ensures r.Some? ==> r.value == p.modelFactory.value[payloadType]
  {
    match p.modelFactory
    case None => None
    case Some(f) => if payloadType in f then Some(f[payloadType]) else None
  }

  /** Constructor dispatch as written: the list flag picks `parse`, its absence `parse_list`. */
  function Construct<M>(model: Model<M>, payloadList: bool, json: Json): Constructed<M>
  {
    if payloadList then model.parse(json) else model.parseList(json)
  }

  /** Constructor dispatch as intended: the list flag picks `parse_list`. */
  function ConstructIntended<M>(model: Model<M>, payloadList: bool, json: Json): (r: Constructed<M>)
    ensures payloadList ==> r == model.parseList(json)
    ensures !payloadList ==> r == model.parse(json)
  {
    if payloadList then model.parseList(json) else model.parse(json)
  }

  /**
   * The value JSONParser's parse handed back, as ModelParser sees it: a
   * pair is split into data and cursor; anything else is the data, with
   * no cursor.
   */
  function Unpack(decoded: ParseResult<Json>): (Json, Option<Cursor>)
    requires !decoded.Error?
  {
    match decoded
    case Data(v) => (v, None)
    case DataWithCursor(v, c) => (v, Some(c))
    case EmptyList => (JList([]), None)
    case EmptyDict => (JObject(map[]), None)
    case NoneResult => (JNull, None)
  }

  /** The final step: `(result, cursors)` exactly when cursors were asked for and are truthy. */
  function Attach<M>(result: M, returnCursors: bool, cursors: Option<Cursor>): (r: ParseResult<M>)
    ensures r.Data? || r.DataWithCursor?
    ensures r.v == result
    ensures r.DataWithCursor? <==> returnCursors && CursorTruthy(cursors)
    ensures r.DataWithCursor? ==> Some(r.c) == cursors
  {
    if returnCursors && CursorTruthy(cursors) then DataWithCursor(result, cursors.value) else Data(result)
  }

  /** The steps after decoding: construct, map KeyError, let other exceptions through, attach the cursor. */
  function Build<M>(construct: Constructed<M>, json: Json, returnCursors: bool, cursors: Option<Cursor>): ParseResult<M>
  {
    match construct
    case KeyError => Error(UnableToParse(json))
    case Raised(exception) => Error(Propagated(exception))
    case Built(result) => Attach(result, returnCursors, cursors)
  }

  /** ModelParser.parse as written. */
  function Parse<M>(p: Config<M>, payload: string, payloadList: bool, payloadType: Option<string>,
                    returnCursors: bool, decode: Decoder): (r: ParseResult<M>)
    // no type asked for: [] before any lookup
    ensures payloadType.None? ==> r == EmptyList
    // an unknown type fails with its name, whatever the payload
    ensures payloadType.Some? && Lookup(p, payloadType.value).None? ==>
              r == Error(NoModelForType(payloadType.value))
    // the only TweepyExceptions: an unknown type, or a constructor's KeyError
    ensures r.Error? && r.e.NoModelForType? ==> payloadType == Some(r.e.payloadType)
    ensures r.Error? && (r.e.UnableToParse? || r.e.Propagated?) ==>
              payloadType.Some? && Lookup(p, payloadType.value).Some?
    // an exception from decoding passes through unchanged
    ensures payloadType.Some? && Lookup(p, payloadType.value).Some? &&
            JsonParser.Parse(payload, returnCursors, decode).Error? ==>
              r == Error(JsonParser.Parse(payload, returnCursors, decode).e)
    ensures r.DataWithCursor? ==> returnCursors
  {
    match payloadType
    case None => EmptyList
    case Some(name) =>
      match Lookup(p, name)
      case None => Error(NoModelForType(name))
      case Some(model) =>
        var decoded := JsonParser.Parse(payload, returnCursors, decode);
        if decoded.Error? then Error(decoded.e)
        else
          var (json, cursors) := Unpack(decoded);
          Build(Construct(model, payloadList, json), json, returnCursors, cursors)
  }

  /** ModelParser.parse with JSONParser's parse and the constructor dispatch as intended. */
  function ParseIntended<M>(p: Config<M>, payload: string, payloadList: bool, payloadType: Option<string>,
                            returnCursors: bool, decode: Decoder): (r: ParseResult<M>)
    ensures payloadType.None? ==> r == EmptyList
    ensures payloadType.Some? && Lookup(p, payloadType.value).None? ==>
              r == Error(NoModelForType(payloadType.value))
    // decoding raises nothing: only the two TweepyExceptions and a constructor's own exception come out
    ensures r.Error? ==> IsTweepyException(r.e) || r.e.Propagated?
    ensures r.Error? && (r.e.UnableToParse? || r.e.Propagated?) ==>
              payloadType.Some? && Lookup(p, payloadType.value).Some?
    ensures r.DataWithCursor? ==> returnCursors
  {
    match payloadType
    case None => EmptyList
    case Some(name) =>
      match Lookup(p, name)
      case None => Error(NoModelForType(name))
      case Some(model) =>
        var (json, cursors) := Unpack(JsonParser.ParseIntended(payload, returnCursors, decode));
        Build(ConstructIntended(model, payloadList, json), json, returnCursors, cursors)
  }

  /** Without a type, payload and decoder are never looked at. */
  lemma NoTypeIgnoresPayload<M>(p: Config<M>, payload1: string, payload2: string, payloadList: bool,
                                returnCursors: bool, decode1: Decoder, decode2: Decoder)
    ensures Parse(p, payload1, payloadList, None, returnCursors, decode1)
            == Parse(p, payload2, payloadList, None, returnCursors, decode2)
    ensures Parse(p, payload1, payloadList, None, returnCursors, decode1) == EmptyList
  {
  }

  /** The unknown-type error carries the exact name, whatever the payload. */
  lemma UnknownTypeNamed<M>(p: Config<M>, payload: string, payloadList: bool, name: string,
                            returnCursors: bool, decode: Decoder)
    requires p.modelFactory.None? || name !in p.modelFactory.value
    ensures Parse(p, payload, payloadList, Some(name), returnCursors, decode) == Error(NoModelForType(name))
  {
  }

  /** What ModelParser does with a constructor call's outcome when no cursor is attached. */
  function Outcome<M>(c: Constructed<M>, json: Json): ParseResult<M>
  {
    match c
    case Built(obj) => Data(obj)
    case KeyError => Error(UnableToParse(json))
    case Raised(exception) => Error(Propagated(exception))
  }

  /**
   * Dispatch and error mapping, on every payload whose decoding does not
   * raise: the constructor gets what JSONParser's parse handed back (`[]`
   * for an empty payload, `{}` for a decode failure, `None` otherwise);
   * the list flag calls `parse` and its absence `parse_list`; a KeyError
   * becomes the TweepyException carrying that JSON, any other exception
   * passes through, and a built result comes back alone.
   */
  lemma DispatchAndErrorMapping<M>(p: Config<M>, payload: string, payloadList: bool, name: string,
                                   returnCursors: bool, decode: Decoder)
    requires p.modelFactory.Some? && name in p.modelFactory.value
    requires !JsonParser.Parse(payload, returnCursors, decode).Error?
    ensures var json := if payload == [] then JList([])
                        else if decode(payload).None? then JObject(map[])
                        else JNull;
            var model := p.modelFactory.value[name];
            var c := if payloadList then model.parse(json) else model.parseList(json);
            Parse(p, payload, payloadList, Some(name), returnCursors, decode) == Outcome(c, json)
  {
  }

  /**
   * The corrected parse on every payload: the constructor gets the decoded
   * value (`[]` for an empty payload, `{}` for a decode failure); the list
   * flag calls `parse_list` and its absence `parse`; a KeyError becomes the
   * TweepyException carrying that JSON, any other exception passes
   * through; a built result comes back with the cursor JSONParser found
   * exactly when cursors were asked for and that cursor is truthy.
   */
  lemma IntendedDispatchAndErrorMapping<M>(p: Config<M>, payload: string, payloadList: bool, name: string,
                                           returnCursors: bool, decode: Decoder)
    requires p.modelFactory.Some? && name in p.modelFactory.value
    ensures var json := if payload == [] then JList([])
                        else if decode(payload).None? then JObject(map[])
                        else decode(payload).value;
            var decoded := JsonParser.ParseIntended(payload, returnCursors, decode);
            var cursors := if decoded.DataWithCursor? then Some(decoded.c) else None;
            var model := p.modelFactory.value[name];
            var c := if payloadList then model.parseList(json) else model.parse(json);
            var r := ParseIntended(p, payload, payloadList, Some(name), returnCursors, decode);
            (c.Built? ==> r == Attach(c.obj, returnCursors, cursors)) &&
            (!c.Built? ==> r == Outcome(c, json))
  {
  }

  /**
   * As written, JSONParser's parse never returns a pair, so ModelParser
   * never attaches a cursor, and constructors only ever see `[]`, `{}` or
   * `None`.
   */
  lemma AsWrittenNeverAttachesCursor<M>(p: Config<M>, payload: string, payloadList: bool,
                                        payloadType: Option<string>, returnCursors: bool, decode: Decoder)
    ensures !Parse(p, payload, payloadList, payloadType, returnCursors, decode).DataWithCursor?
    ensures var r := Parse(p, payload, payloadList, payloadType, returnCursors, decode);
            r.Error? && r.e.UnableToParse? ==>
              r.e.json == JList([]) || r.e.json == JObject(map[]) || r.e.json == JNull
  {
  }

  /** A ModelParser built without a factory fails on every model type. */
  lemma DefaultParserRejectsEveryType<M>(defaultFactory: Factory<M>, payload: string, payloadList: bool,
                                         name: string, returnCursors: bool, decode: Decoder)
    ensures Parse(Init(None, defaultFactory), payload, payloadList, Some(name), returnCursors, decode)
            == Error(NoModelForType(name))
  {
  }

  /** Whatever factory is supplied, the parser built from it is the same one. */
  lemma SuppliedFactoryIgnored<M>(f: Factory<M>, g: Factory<M>, defaultFactory: Factory<M>)
    ensures Init(Some(f), defaultFactory) == Init(Some(g), defaultFactory)
  {
  }

  /** As intended, a parser built without a factory knows the default factory's types. */
  lemma IntendedDefaultFactoryUsed<M>(defaultFactory: Factory<M>, name: string)
    requires name in defaultFactory
    ensures Lookup(InitIntended(None, defaultFactory), name) == Some(defaultFactory[name])
  {
  }

  /** The dispatch as written is the intended one with the list flag negated. */
  lemma ListFlagSwapped<M>(model: Model<M>, payloadList: bool, json: Json)
    ensures Construct(model, payloadList, json) == ConstructIntended(model, !payloadList, json)
  {
  }

  /**
   * As intended, a dict carrying a truthy "next" comes back as the built
   * object with that cursor, and as written as the built object alone,
   * built from `None`.
   */
  lemma IntendedCursorReturned<M>(p: Config<M>, payload: string, name: string, decode: Decoder,
                                  m: map<string, Json>)
    requires p.modelFactory.Some? && name in p.modelFactory.value
    requires payload != [] && decode(payload) == Some(JObject(m))
    requires "next" in m && Truthy(m["next"])
    requires p.modelFactory.value[name].parse(JObject(m)).Built?
    ensures ParseIntended(p, payload, false, Some(name), true, decode)
            == DataWithCursor(p.modelFactory.value[name].parse(JObject(m)).obj, Single(m["next"]))
    ensures var c := p.modelFactory.value[name].parseList(JNull);
            Parse(p, payload, false, Some(name), true, decode)
            == Outcome(c, JNull)
  {
  }
}

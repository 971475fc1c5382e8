/** `StoreRestApiServiceImpl`: the REST API over named key-value stores under
    `/system/store/:storeName[/:key]`. Each handler opens the store, changes it and
    writes a response; what it writes is stated as a `Reply` computed from the store.

    The store backend is a map from store name to items; a store is created empty
    when it is first opened. JSON serialisation (`MapUtil.jsonify`) and parsing of
    the request body are parameters and inputs. */
module StoreRestApi {
  import opened Common
  import opened Http
  import opened HttpExchange
  import opened LambdaExchange

  /** A stored value: a string, or any other object. */
  datatype StoreValue = StringValue(text: string) | ObjectValue(id: nat)

  /** A store's items; a key saved with a null value is present with `None`. */
  type Items = map<string, Option<StoreValue>>

  /** What `serialiseBodyAsJson` is handed: one item's value, or a map of items. */
  datatype JsonBody = ItemJson(value: StoreValue) | ItemsJson(items: Items)

  /** What a handler writes: an optional status (none keeps the response's), an
      optional Content-Type and an optional body, ending the response; or a failed
      serialisation, which fails the exchange without ending it. */
  datatype Reply =
    | Reply(status: Option<int>, contentType: Option<string>, body: Option<string>)
    | JsonFailure(message: string)

  const NOT_ACCEPTABLE_MESSAGE: string := "Stores are only available as JSON. Please set an appropriate Accept header."

  // ---------------------------------------------------------------------------
  // Replies

  /** `serialiseBodyAsJson`: the JSON Content-Type and the serialised body; a
      serialisation failure fails the exchange. */
  function SerialiseBodyAsJson(body: JsonBody, jsonify: JsonBody -> Result<string>): (r: Reply)
    ensures jsonify(body).Ok? ==> r == Reply(None, Some(CONTENT_TYPE_JSON), Some(jsonify(body).value))
    ensures jsonify(body).Err? ==> r == JsonFailure(jsonify(body).message)
  {
    match jsonify(body)
    case Ok(text) => Reply(None, Some(CONTENT_TYPE_JSON), Some(text))
    case Err(message) => JsonFailure(message)
  }

  /** `loadByKeyPrefix`: the items whose key starts with the prefix. */
  function ByKeyPrefix(items: Items, keyPrefix: string): (r: Items)
    ensures forall key :: key in r <==> key in items && StartsWith(key, keyPrefix)
    ensures forall key :: key in r ==> r[key] == items[key]
  {
    map key | key in items && StartsWith(key, keyPrefix) :: items[key]
  }

  /** `handleLoadAll`: JSON of every item, or of those under `keyPrefix`, when the
      client accepts JSON or sends no Accept header; otherwise 406. */
  function LoadAllReply(items: Items, acceptsJson: bool, keyPrefix: Option<string>,
                        jsonify: JsonBody -> Result<string>): (r: Reply)
    ensures !acceptsJson ==> r == Reply(Some(HTTP_NOT_ACCEPTABLE), Some(CONTENT_TYPE_PLAIN_TEXT), Some(NOT_ACCEPTABLE_MESSAGE))
    ensures acceptsJson && keyPrefix.None? ==> r == SerialiseBodyAsJson(ItemsJson(items), jsonify)
    ensures acceptsJson && keyPrefix.Some? ==> r == SerialiseBodyAsJson(ItemsJson(ByKeyPrefix(items, keyPrefix.value)), jsonify)
  {
    if acceptsJson then
      SerialiseBodyAsJson(ItemsJson(if keyPrefix.Some? then ByKeyPrefix(items, keyPrefix.value) else items), jsonify)
    else
      Reply(Some(HTTP_NOT_ACCEPTABLE), Some(CONTENT_TYPE_PLAIN_TEXT), Some(NOT_ACCEPTABLE_MESSAGE))
  }

  /** `handleLoadSingle`: a string as plain text, any other value as JSON, and 404
      with no body when the key is absent or holds null. */
  function LoadSingleReply(items: Items, key: string, jsonify: JsonBody -> Result<string>): (r: Reply)
    ensures (key !in items || items[key].None?) <==> r == Reply(Some(HTTP_NOT_FOUND), None, None)
    ensures key in items && items[key].Some? && items[key].value.StringValue? ==>
              r == Reply(None, Some(CONTENT_TYPE_PLAIN_TEXT), Some(items[key].value.text))
    ensures key in items && items[key].Some? && items[key].value.ObjectValue? ==>
              r == SerialiseBodyAsJson(ItemJson(items[key].value), jsonify)
  {
    if key in items && items[key].Some? then
      match items[key].value
      case StringValue(text) => Reply(None, Some(CONTENT_TYPE_PLAIN_TEXT), Some(text))
      case ObjectValue(_) => SerialiseBodyAsJson(ItemJson(items[key].value), jsonify)
    else Reply(Some(HTTP_NOT_FOUND), None, None)
  }

  /** The status of a PUT (section 4.3.4 of RFC 7231): 201 when the PUT creates the
      item, 200 when it replaces one. */
  function SaveSingleStatus(items: Items, key: string): (status: int)
    ensures status == HTTP_CREATED <==> key !in items
    ensures status == HTTP_OK <==> key in items
  {
    if key in items then HTTP_OK else HTTP_CREATED
  }

  /** The items after saving entries in order; a later entry for a key wins. */
  function SaveAll(items: Items, entries: seq<(string, Option<StoreValue>)>): Items {
    if entries == [] then items
    else
      var entry := entries[|entries| - 1];
      SaveAll(items, entries[..|entries| - 1])[entry.0 := entry.1]
  }

  // ---------------------------------------------------------------------------
  // Properties of the replies

  /** A PUT followed by a GET gives back the body as plain text. */
  lemma PutThenGet(items: Items, key: string, body: string, jsonify: JsonBody -> Result<string>)
    ensures LoadSingleReply(items[key := Some(StringValue(body))], key, jsonify)
            == Reply(None, Some(CONTENT_TYPE_PLAIN_TEXT), Some(body))
  {
  }

  /** A PUT with no body stores null, which reads back as 404. */
  lemma PutNullThenGet(items: Items, key: string, jsonify: JsonBody -> Result<string>)
    ensures LoadSingleReply(items[key := None], key, jsonify).status == Some(HTTP_NOT_FOUND)
  {
  }

  /** A second PUT of the same key replaces rather than creates. */
  lemma SecondPutReplaces(items: Items, key: string, value: Option<StoreValue>)
    ensures SaveSingleStatus(items[key := value], key) == HTTP_OK
  {
  }

  /** A deleted item reads back as 404. */
  lemma DeleteThenGet(items: Items, key: string, jsonify: JsonBody -> Result<string>)
    ensures LoadSingleReply(items - {key}, key, jsonify) == Reply(Some(HTTP_NOT_FOUND), None, None)
  {
  }

  /** The empty prefix selects every item. */
  lemma EmptyPrefixSelectsAll(items: Items)
    ensures ByKeyPrefix(items, "") == items
  {
  }

  /** Saving entries adds exactly their keys; other items are untouched, and a key
      saved last holds the last value. */
  lemma {:induction false} SaveAllEffect(items: Items, entries: seq<(string, Option<StoreValue>)>)
    ensures SaveAll(items, entries).Keys == items.Keys + set i | 0 <= i < |entries| :: entries[i].0
    ensures forall key :: key in items && (forall i :: 0 <= i < |entries| ==> entries[i].0 != key) ==>
              SaveAll(items, entries)[key] == items[key]
    ensures entries != [] ==> SaveAll(items, entries)[entries[|entries| - 1].0] == entries[|entries| - 1].1
  {
    if entries != [] {
      var init := entries[..|entries| - 1];
      SaveAllEffect(items, init);
      var last := entries[|entries| - 1];
      assert (set i | 0 <= i < |entries| :: entries[i].0) == (set i | 0 <= i < |init| :: init[i].0) + {last.0} by {
        forall i | 0 <= i < |init|
          ensures init[i] == entries[i]
        {
        }
      }
    }
  }

  // ---------------------------------------------------------------------------
  // The store backend

  /** The items a store currently holds; a store never opened is empty. */
  function StoreItems(stores: map<string, Items>, storeName: string): Items {
    if storeName in stores then stores[storeName] else map[]
  }

  /** The store factory and the stores it has opened. */
  class StoreFactory {
    var stores: map<string, Items>

    constructor ()
      ensures stores == map[]
    {
      stores := map[];
    }

    /** `getStoreByName`: the store, created empty when it does not exist yet. */
    method GetStoreByName(storeName: string) returns (items: Items)
      modifies this
      ensures items == StoreItems(old(stores), storeName)
      ensures stores == old(stores)[storeName := items]
    {
      items := StoreItems(stores, storeName);
      stores := stores[storeName := items];
    }

    /** `clearStore`: the store and its items are gone. */
    method ClearStore(storeName: string)
      modifies this
      ensures stores == old(stores) - {storeName}
    {
      stores := stores - {storeName};
    }

    method Save(storeName: string, key: string, value: Option<StoreValue>)
      requires storeName in stores
      modifies this
      ensures stores == old(stores)[storeName := old(stores)[storeName][key := value]]
    {
      stores := stores[storeName := stores[storeName][key := value]];
    }

    method Delete(storeName: string, key: string)
      requires storeName in stores
      modifies this
      ensures stores == old(stores)[storeName := old(stores)[storeName] - {key}]
    {
      stores := stores[storeName := stores[storeName] - {key}];
    }
  }

  // ---------------------------------------------------------------------------
  // Writing a reply

  /** The parts of a response a reply changes; `endCalls` counts the ends. */
  datatype ResponseState = ResponseState(statusCode: int, headers: map<string, string>,
                                         body: Option<seq<byte>>, endCalls: nat)

  ghost function StateOf(response: LambdaHttpResponse): ResponseState
    reads response
  {
    ResponseState(response.statusCode, response.headers, response.bodyBuffer, response.endCalls)
  }

  /** A response after a reply. A failed serialisation has already put the JSON
      Content-Type when it fails, and the response is not ended. */
  ghost function AfterReply(s: ResponseState, reply: Reply): ResponseState {
    match reply
    case Reply(status, contentType, body) =>
      var headers := if contentType.Some? then s.headers[CONTENT_TYPE := contentType.value] else s.headers;
      ResponseState(status.GetOr(s.statusCode),
                    if body.Some? then WithContentLength(headers, Utf8(body.value)) else headers,
                    if body.Some? then Some(Utf8(body.value)) else s.body,
                    s.endCalls + 1)
    case JsonFailure(_) =>
      ResponseState(HTTP_INTERNAL_ERROR, s.headers[CONTENT_TYPE := CONTENT_TYPE_JSON], s.body, s.endCalls)
  }

  method Send(exchange: LambdaHttpExchange, reply: Reply)
    modifies exchange, exchange.response
    ensures StateOf(exchange.response) == AfterReply(old(StateOf(exchange.response)), reply)
    ensures reply.Reply? ==> exchange.failureCause == old(exchange.failureCause)
    ensures reply.JsonFailure? ==> exchange.failureCause == Some(Failure(reply.message))
    ensures exchange.phase == old(exchange.phase)
  {
    match reply
    case Reply(status, contentType, body) =>
      if status.Some? {
        exchange.response.SetStatusCode(status.value);
      }
      if contentType.Some? {
        exchange.response.PutHeader(CONTENT_TYPE, contentType.value);
      }
      exchange.response.EndString(body);
    case JsonFailure(message) =>
      exchange.response.PutHeader(CONTENT_TYPE, CONTENT_TYPE_JSON);
      exchange.Fail(Some(Failure(message)));
  }

  /** Whether the client takes JSON: no Accept header, or one naming JSON. */
  function AcceptsJson(exchange: LambdaHttpExchange): bool {
    exchange.IsAcceptHeaderEmpty() || exchange.AcceptsMimeType(CONTENT_TYPE_JSON)
  }

  // ---------------------------------------------------------------------------
  // The handlers; the path parameters are given.

  method HandleLoadAll(factory: StoreFactory, exchange: LambdaHttpExchange, storeName: string,
                       jsonify: JsonBody -> Result<string>)
    modifies factory, exchange, exchange.response
    ensures factory.stores == old(factory.stores)[storeName := StoreItems(old(factory.stores), storeName)]
    ensures var reply := LoadAllReply(StoreItems(old(factory.stores), storeName), AcceptsJson(exchange),
                                      exchange.QueryParam("keyPrefix"), jsonify);
            StateOf(exchange.response) == AfterReply(old(StateOf(exchange.response)), reply) &&
            (reply.JsonFailure? ==> exchange.failureCause == Some(Failure(reply.message)))
  {
    var items := factory.GetStoreByName(storeName);
    var reply;
    if exchange.IsAcceptHeaderEmpty() || exchange.AcceptsMimeType(CONTENT_TYPE_JSON) {
      var keyPrefix := exchange.QueryParam("keyPrefix");
      var selected := if keyPrefix.Some? then ByKeyPrefix(items, keyPrefix.value) else items;
      reply := SerialiseBodyAsJson(ItemsJson(selected), jsonify);
    } else {
      reply := Reply(Some(HTTP_NOT_ACCEPTABLE), Some(CONTENT_TYPE_PLAIN_TEXT), Some(NOT_ACCEPTABLE_MESSAGE));
    }
    Send(exchange, reply);
  }

  method HandleDeleteStore(factory: StoreFactory, exchange: LambdaHttpExchange, storeName: string)
    modifies factory, exchange, exchange.response
    ensures factory.stores == old(factory.stores) - {storeName}
    ensures StateOf(exchange.response) == AfterReply(old(StateOf(exchange.response)), Reply(Some(HTTP_NO_CONTENT), None, None))
  {
    factory.ClearStore(storeName);
    Send(exchange, Reply(Some(HTTP_NO_CONTENT), None, None));
  }

  method HandleLoadSingle(factory: StoreFactory, exchange: LambdaHttpExchange, storeName: string, key: string,
                          jsonify: JsonBody -> Result<string>)
    modifies factory, exchange, exchange.response
    ensures factory.stores == old(factory.stores)[storeName := StoreItems(old(factory.stores), storeName)]
    ensures var reply := LoadSingleReply(StoreItems(old(factory.stores), storeName), key, jsonify);
            StateOf(exchange.response) == AfterReply(old(StateOf(exchange.response)), reply) &&
            (reply.JsonFailure? ==> exchange.failureCause == Some(Failure(reply.message)))
  {
    var items := factory.GetStoreByName(storeName);
    var reply;
    if key in items && items[key].Some? {
      var value := items[key].value;
      if value.StringValue? {
        reply := Reply(None, Some(CONTENT_TYPE_PLAIN_TEXT), Some(value.text));
      } else {
        reply := SerialiseBodyAsJson(ItemJson(value), jsonify);
      }
    } else {
      reply := Reply(Some(HTTP_NOT_FOUND), None, None);
    }
    Send(exchange, reply);
  }

  /** `handleSaveSingle`: the request body, or null, under the key. */
  method HandleSaveSingle(factory: StoreFactory, exchange: LambdaHttpExchange, storeName: string, key: string)
    modifies factory, exchange, exchange.response
    ensures var items := StoreItems(old(factory.stores), storeName);
            var value := if exchange.request.event.body.Some? then Some(StringValue(exchange.request.event.body.value)) else None;
            factory.stores == old(factory.stores)[storeName := items[key := value]] &&
            StateOf(exchange.response) == AfterReply(old(StateOf(exchange.response)),
                                                     Reply(Some(SaveSingleStatus(items, key)), None, None))
  {
    var items := factory.GetStoreByName(storeName);
    var statusCode := if key in items then HTTP_OK else HTTP_CREATED;
    var body := exchange.request.event.body;
    var value := if body.Some? then Some(StringValue(body.value)) else None;
    factory.Save(storeName, key, value);
    Send(exchange, Reply(Some(statusCode), None, None));
  }

  /** `handleSaveMultiple`: every entry of the parsed JSON body, in order; no body
      saves nothing. */
  method HandleSaveMultiple(factory: StoreFactory, exchange: LambdaHttpExchange, storeName: string,
                            bodyAsJson: Option<seq<(string, Option<StoreValue>)>>)
    modifies factory, exchange, exchange.response
    ensures var items := StoreItems(old(factory.stores), storeName);
            factory.stores == old(factory.stores)[storeName := SaveAll(items, bodyAsJson.GetOr([]))]
    ensures StateOf(exchange.response) == AfterReply(old(StateOf(exchange.response)), Reply(Some(HTTP_OK), None, None))
  {
    var items := factory.GetStoreByName(storeName);
    var entries := bodyAsJson.GetOr([]);
    for i := 0 to |entries|
      invariant factory.stores == old(factory.stores)[storeName := SaveAll(items, entries[..i])]
      invariant StateOf(exchange.response) == old(StateOf(exchange.response))
    {
      assert entries[..i + 1][..i] == entries[..i];
      factory.Save(storeName, entries[i].0, entries[i].1);
    }
    assert entries[..|entries|] == entries;
    Send(exchange, Reply(Some(HTTP_OK), None, None));
  }

  /** `handleDeleteSingle`: 204 whether or not the item existed. */
  method HandleDeleteSingle(factory: StoreFactory, exchange: LambdaHttpExchange, storeName: string, key: string)
    modifies factory, exchange, exchange.response
    ensures factory.stores == old(factory.stores)[storeName := StoreItems(old(factory.stores), storeName) - {key}]
    ensures StateOf(exchange.response) == AfterReply(old(StateOf(exchange.response)), Reply(Some(HTTP_NO_CONTENT), None, None))
  {
    var items := factory.GetStoreByName(storeName);
    factory.Delete(storeName, key);
    Send(exchange, Reply(Some(HTTP_NO_CONTENT), None, None));
  }
}

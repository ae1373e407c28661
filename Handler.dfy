/**
 * The `/dataapi` request handler: method check, body read, key
 * derivation, cache lookup, forwarding, the cacheability decision, the
 * conditional cache write and the emission of status and body.
 *
 * Upstream is an oracle from request bytes to a reply or a transport
 * failure; JSON decoding of the `{code, msg}` envelope is an oracle from
 * bytes to an optional result (Go's decoder leaves absent fields at zero,
 * so the oracle yields code 0 for an object without a `code` field);
 * JSON encoding of the proxy's own error envelope is an oracle from result
 * to bytes.
 */
module Handler {

  import opened Wrappers
  import opened Hex
  import opened Cache

  const StatusOK: int := 200
  const StatusBadRequest: int := 400
  const StatusMethodNotAllowed: int := 405
  const StatusInternalServerError: int := 500

  const MethodPost: string := "POST"
  const MsgPostOnly: string := "只支持POST方法"
  const MsgBodyReadFailed: string := "读取请求体失败"
  const MsgUpstreamFailed: string := "请求tushare API失败"

  /** The `{code, msg}` envelope of Tushare replies and of the proxy's own errors. */
  datatype TushareApiResult = TushareApiResult(code: int, msg: string)

  /** An inbound request: its method, and its body or None when reading it failed. */
  datatype Request = Request(httpMethod: string, body: Option<seq<byte>>)

  /** What forwarding returns: upstream's body and status, or a transport failure. */
  datatype UpstreamReply = Reply(body: seq<byte>, statusCode: int) | TransportError

  /** Engine failures met by the cache operations of one request. */
  datatype CacheFaults = CacheFaults(readFails: bool, deleteFails: bool, writeFails: bool)

  /**
   * The cacheability rule: transport status 200, a non-empty body, an
   * envelope that decodes, and business code 0.
   */
  predicate ShouldCache(statusCode: int, response: seq<byte>, parse: seq<byte> -> Option<TushareApiResult>) {
    statusCode == StatusOK && |response| > 0 && parse(response).Some? && parse(response).value.code == 0
  }

  /**
   * The invariant the handler keeps over the store: every stored entry sits
   * under the key of its own request body and holds a cacheable response.
   */
  ghost predicate StoreConsistent(store: map<string, Record>, hash: seq<byte> -> Digest,
                                  parse: seq<byte> -> Option<TushareApiResult>) {
    forall k | k in store && store[k].Stored? ::
      k == GenerateKey(hash, store[k].entry.requestBody)
      && ShouldCache(store[k].entry.statusCode, store[k].entry.responseBody, parse)
  }

  /**
   * On a consistent store a hit serves a response recorded for a request
   * with the same digest, with transport status 200 and business code 0.
   */
  lemma HitServesSameDigest(store: map<string, Record>, hash: seq<byte> -> Digest,
                            parse: seq<byte> -> Option<TushareApiResult>, body: seq<byte>, now: int, ttl: int)
    requires StoreConsistent(store, hash, parse)
    requires Lookup(store, GenerateKey(hash, body), now, ttl).Some?
    ensures hash(Lookup(store, GenerateKey(hash, body), now, ttl).value.requestBody) == hash(body)
    ensures Lookup(store, GenerateKey(hash, body), now, ttl).value.statusCode == StatusOK
    ensures parse(Lookup(store, GenerateKey(hash, body), now, ttl).value.responseBody).Some?
    ensures parse(Lookup(store, GenerateKey(hash, body), now, ttl).value.responseBody).value.code == 0
  {
  }

  /** Removing keys keeps the store consistent. */
  lemma RemoveKeepsConsistent(store: map<string, Record>, hash: seq<byte> -> Digest,
                              parse: seq<byte> -> Option<TushareApiResult>, key: string)
    requires StoreConsistent(store, hash, parse)
    ensures StoreConsistent(store - {key}, hash, parse)
  {
  }

  /** Writing a cacheable response under its own request's key keeps the store consistent. */
  lemma SetKeepsConsistent(store: map<string, Record>, hash: seq<byte> -> Digest,
                           parse: seq<byte> -> Option<TushareApiResult>, body: seq<byte>, e: CacheEntry)
    requires StoreConsistent(store, hash, parse)
    requires e.requestBody == body && ShouldCache(e.statusCode, e.responseBody, parse)
    ensures StoreConsistent(store[GenerateKey(hash, body) := Stored(e)], hash, parse)
  {
  }

  /**
   * The net/http response writer as the handler uses it: headers, a status
   * fixed by the first `WriteHeader` (or by the first `Write`, as 200), and
   * the bytes written.
   */
  class ResponseWriter {
    var headers: map<string, string>
    var status: Option<int>
    var body: seq<byte>

    constructor ()
      ensures headers == map[] && status == None && body == []
    {
      headers := map[];
      status := None;
      body := [];
    }

    /** `w.Header().Set(name, value)`. */
    method SetHeader(name: string, value: string)
      modifies this
      ensures headers == old(headers)[name := value]
      ensures status == old(status) && body == old(body)
    {
      headers := headers[name := value];
    }

    /** `w.WriteHeader(code)`: only the first status takes effect. */
    method WriteHeader(code: int)
      modifies this
      ensures status == if old(status).None? then Some(code) else old(status)
      ensures headers == old(headers) && body == old(body)
    {
      if status.None? {
        status := Some(code);
      }
    }

    /** `w.Write(bytes)`: a write before any status sends 200. */
    method Write(bytes: seq<byte>)
      modifies this
      ensures status == if old(status).None? then Some(StatusOK) else old(status)
      ensures body == old(body) + bytes
      ensures headers == old(headers)
    {
      if status.None? {
        status := Some(StatusOK);
      }
      body := body + bytes;
    }
  }

  /**
   * `sendErrorResponse`: the transport status is always 200 and the
   * failure travels as the envelope's `code`.
   */
  method SendErrorResponse(w: ResponseWriter, message: string, statusCode: int,
                           marshal: TushareApiResult -> seq<byte>)
    modifies w
    ensures w.status == if old(w.status).None? then Some(StatusOK) else old(w.status)
    ensures w.body == old(w.body) + marshal(TushareApiResult(statusCode, message))
    ensures w.headers == old(w.headers)
  {
    w.WriteHeader(StatusOK);
    var response := marshal(TushareApiResult(statusCode, message));
    w.Write(response);
  }

  /** Whether the lookup of a request's body finds a fresh entry. */
  ghost predicate Hits(cm: CacheManager, store: map<string, Record>, body: seq<byte>, lookupAt: int, faults: CacheFaults)
    reads cm
  {
    !faults.readFails && Lookup(store, GenerateKey(cm.hash, body), lookupAt, cm.ttl).Some?
  }

  /** The store after the lookup of a request's body: an expired entry is gone unless its delete failed. */
  ghost function AfterLookup(cm: CacheManager, store: map<string, Record>, body: seq<byte>, lookupAt: int,
                             faults: CacheFaults): map<string, Record>
    reads cm
  {
    var key := GenerateKey(cm.hash, body);
    if !faults.readFails && !faults.deleteFails && FindsExpired(store, key, lookupAt, cm.ttl)
    then store - {key} else store
  }

  /**
   * `DataAPIHandler`. Returns whether the response came from the cache,
   * whether the request was forwarded upstream, and whether `Set` was
   * called.
   */
  method DataApiHandler(w: ResponseWriter, r: Request, cm: CacheManager?,
                        forward: seq<byte> -> UpstreamReply,
                        parse: seq<byte> -> Option<TushareApiResult>,
                        marshal: TushareApiResult -> seq<byte>,
                        lookupAt: int, storeAt: int, faults: CacheFaults)
    returns (isFromCache: bool, forwarded: bool, setCalled: bool)
    requires cm != null ==> cm.hasDb
    requires w.status.None? && w.body == []
    modifies w, cm
    ensures w.headers == old(w.headers)["Content-Type" := "application/json"]
    // a proxy failure: transport status 200, the real status in the envelope, no forwarding, no cache access
    ensures r.httpMethod != MethodPost ==>
      && w.status == Some(StatusOK) && w.body == marshal(TushareApiResult(StatusMethodNotAllowed, MsgPostOnly))
      && !isFromCache && !forwarded && !setCalled && (cm != null ==> cm.store == old(cm.store))
    ensures r.httpMethod == MethodPost && r.body.None? ==>
      && w.status == Some(StatusOK) && w.body == marshal(TushareApiResult(StatusBadRequest, MsgBodyReadFailed))
      && !isFromCache && !forwarded && !setCalled && (cm != null ==> cm.store == old(cm.store))
    ensures r.httpMethod == MethodPost && r.body.Some? ==>
      var body := r.body.value;
      // a hit is served verbatim from the cache, without upstream and without Set
      && (isFromCache <==> cm != null && Hits(cm, old(cm.store), body, lookupAt, faults))
      && (isFromCache ==>
            var e := Lookup(old(cm.store), GenerateKey(cm.hash, body), lookupAt, cm.ttl).value;
            && w.status == Some(e.statusCode) && w.body == e.responseBody
            && !forwarded && !setCalled && cm.store == old(cm.store))
      // every miss, and every request while caching is disabled, is forwarded
      && (forwarded <==> !isFromCache)
      && (forwarded && forward(body).TransportError? ==>
            && w.status == Some(StatusOK) && w.body == marshal(TushareApiResult(StatusInternalServerError, MsgUpstreamFailed))
            && !setCalled)
      && (forwarded && forward(body).Reply? ==>
            w.status == Some(forward(body).statusCode) && w.body == forward(body).body)
      // Set is called exactly for a cacheable upstream reply while caching is enabled
      && (setCalled <==> forwarded && cm != null && forward(body).Reply?
                         && ShouldCache(forward(body).statusCode, forward(body).body, parse))
      && (cm != null && !isFromCache ==>
            cm.store == (if setCalled && !faults.writeFails
                         then AfterLookup(cm, old(cm.store), body, lookupAt, faults)[GenerateKey(cm.hash, body) :=
                                Stored(EntryAt(body, forward(body).body, forward(body).statusCode, storeAt))]
                         else AfterLookup(cm, old(cm.store), body, lookupAt, faults)))
    ensures cm != null && StoreConsistent(old(cm.store), cm.hash, parse) ==> StoreConsistent(cm.store, cm.hash, parse)
  {
    isFromCache, forwarded, setCalled := false, false, false;
    w.SetHeader("Content-Type", "application/json");

    if r.httpMethod != MethodPost {
      SendErrorResponse(w, MsgPostOnly, StatusMethodNotAllowed, marshal);
      return;
    }

    if r.body.None? {
      SendErrorResponse(w, MsgBodyReadFailed, StatusBadRequest, marshal);
      return;
    }
    var body := r.body.value;

    var cacheKey: string := "";
    var response: seq<byte> := [];
    var statusCode: int := 0;

    if cm != null {
      cacheKey := GenerateKey(cm.hash, body);
      ghost var beforeGet := cm.store;
      var entry := cm.Get(cacheKey, lookupAt, faults.readFails, faults.deleteFails);
      if StoreConsistent(beforeGet, cm.hash, parse) {
        RemoveKeepsConsistent(beforeGet, cm.hash, parse, cacheKey);
      }
      if entry.Some? {
        response := entry.value.responseBody;
        statusCode := entry.value.statusCode;
        isFromCache := true;
      }
    }

    if !isFromCache {
      forwarded := true;
      var reply := forward(body);
      if reply.TransportError? {
        SendErrorResponse(w, MsgUpstreamFailed, StatusInternalServerError, marshal);
        return;
      }
      response, statusCode := reply.body, reply.statusCode;

      var shouldCache := false;
      if statusCode == StatusOK && |response| > 0 {
        var result := parse(response);
        if result.Some? && result.value.code == 0 {
          shouldCache := true;
        }
      }

      if cm != null && shouldCache {
        ghost var before := cm.store;
        setCalled := true;
        var _ := cm.Set(cacheKey, body, response, statusCode, storeAt, faults.writeFails);
        if StoreConsistent(before, cm.hash, parse) {
          SetKeepsConsistent(before, cm.hash, parse, body, EntryAt(body, response, statusCode, storeAt));
        }
      }
    }

    w.WriteHeader(statusCode);
    w.Write(response);
  }

  /**
   * A cacheable reply is fetched once: the first POST of a body the cache
   * does not answer (absent, expired or undecodable) is forwarded, and the
   * same POST again within the TTL is answered from the cache with
   * upstream's status and body, without a second upstream call.
   */
  method RepeatAfterCacheableReply(cm: CacheManager, body: seq<byte>,
                                   forward: seq<byte> -> UpstreamReply,
                                   parse: seq<byte> -> Option<TushareApiResult>,
                                   marshal: TushareApiResult -> seq<byte>,
                                   firstAt: int, storeAt: int, secondAt: int)
    returns (firstForwarded: bool, secondForwarded: bool, secondStatus: Option<int>, secondBody: seq<byte>)
    requires cm.hasDb && Lookup(cm.store, GenerateKey(cm.hash, body), firstAt, cm.ttl).None?
    requires forward(body).Reply? && ShouldCache(forward(body).statusCode, forward(body).body, parse)
    requires storeAt <= secondAt && secondAt - storeAt <= cm.ttl - (NanosPerSecond - 1)
    modifies cm
    ensures firstForwarded && !secondForwarded
    ensures secondStatus == Some(StatusOK) && secondBody == forward(body).body
  {
    var faults := CacheFaults(false, false, false);
    ghost var afterFirstLookup := AfterLookup(cm, cm.store, body, firstAt, faults);
    var w1 := new ResponseWriter();
    var _, f1, _ := DataApiHandler(w1, Request(MethodPost, Some(body)), cm, forward, parse, marshal, firstAt, storeAt, faults);
    SetThenLookup(afterFirstLookup, GenerateKey(cm.hash, body), body, forward(body).body, forward(body).statusCode,
                  storeAt, secondAt, cm.ttl);
    var w2 := new ResponseWriter();
    var _, f2, _ := DataApiHandler(w2, Request(MethodPost, Some(body)), cm, forward, parse, marshal, secondAt, secondAt, faults);
    firstForwarded, secondForwarded, secondStatus, secondBody := f1, f2, w2.status, w2.body;
  }

  /**
   * A reply that is not cacheable (an error code, a non-200 status, an
   * empty or undecodable body) is never stored: the same POST again is
   * forwarded again.
   */
  method RepeatAfterUncacheableReply(cm: CacheManager, body: seq<byte>,
                                     forward: seq<byte> -> UpstreamReply,
                                     parse: seq<byte> -> Option<TushareApiResult>,
                                     marshal: TushareApiResult -> seq<byte>,
                                     firstAt: int, secondAt: int)
    returns (firstForwarded: bool, secondForwarded: bool, secondStatus: Option<int>, secondBody: seq<byte>)
    requires cm.hasDb && GenerateKey(cm.hash, body) !in cm.store
    requires forward(body).Reply? && !ShouldCache(forward(body).statusCode, forward(body).body, parse)
    modifies cm
    ensures firstForwarded && secondForwarded
    ensures secondStatus == Some(forward(body).statusCode) && secondBody == forward(body).body
    ensures GenerateKey(cm.hash, body) !in cm.store
  {
    var faults := CacheFaults(false, false, false);
    var w1 := new ResponseWriter();
    var _, f1, _ := DataApiHandler(w1, Request(MethodPost, Some(body)), cm, forward, parse, marshal, firstAt, firstAt, faults);
    var w2 := new ResponseWriter();
    var _, f2, _ := DataApiHandler(w2, Request(MethodPost, Some(body)), cm, forward, parse, marshal, secondAt, secondAt, faults);
    firstForwarded, secondForwarded, secondStatus, secondBody := f1, f2, w2.status, w2.body;
  }
}

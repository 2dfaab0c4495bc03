/**
 * `APIMiddleware.dispatch` (src/maintainance_anomaly_detection/middleware.py:21-60):
 * requests whose path starts with a protected prefix must present the API
 * key (when a non-empty one is configured) and are counted by the
 * fixed-window limiter; every other request passes untouched.
 */
module Middleware {
  import opened Http
  import opened RateLimit
  import ApiGate

  /** `PROTECTED_PATHS`. */
  const ProtectedPaths: seq<string> := ["/analyze"]

  /** `any(path.startswith(p) for p in PROTECTED_PATHS)`. */
  predicate IsProtected(path: string)
  {
    exists i :: 0 <= i < |ProtectedPaths| && ProtectedPaths[i] <= path
  }

  /** The check is a prefix test: "/analyze", "/analyze/x" and "/analyzer" are all protected. */
  lemma ProtectedMeansPrefix(path: string)
    ensures IsProtected(path) <==> "/analyze" <= path
  {
    if "/analyze" <= path {
      assert ProtectedPaths[0] <= path;
    }
  }

  /** `if API_KEY: key = header or query; if key != API_KEY: 401`. An empty key disables the check. */
  predicate KeyRejected(apiKey: Option<string>, req: Request)
  {
    Truthy(apiKey) && PresentedKey(req) != apiKey
  }

  /** `header or request.client.host or 'anon'`: the query key is never used for counting. */
  function ClientKey(req: Request): string
  {
    if Truthy(req.headerKey) then req.headerKey.value
    else if req.host != "" then req.host
    else "anon"
  }

  datatype Outcome = Forward | Reject(status: int)

  /** The answer to one request and the limiter's dictionary after it. */
  datatype Step = Step(outcome: Outcome, store: Store)

  /** `dispatch(request)` at time `now`. */
  function Gate(apiKey: Option<string>, req: Request, store: Store, now: int, windowLen: int, max: int): Step
    requires windowLen != 0
  {
    if !IsProtected(req.path) then Step(Forward, store)
    else if KeyRejected(apiKey, req) then Step(Reject(401), store)
    else
      var slot := SlotOf(ClientKey(req), now, windowLen);
      var after := Bump(store, slot);
      if Hits(after, slot) <= max then Step(Forward, after) else Step(Reject(429), after)
  }

  /**
   * Unprotected paths pass and are not counted; a missing or wrong key on a
   * protected path is a 401 that is not counted; any other protected request
   * adds one to its client's counter alone and is a 429 exactly when the
   * counter was already at max.
   */
  lemma GateCases(apiKey: Option<string>, req: Request, store: Store, now: int, windowLen: int, max: int)
    requires windowLen != 0
    ensures var st := Gate(apiKey, req, store, now, windowLen, max);
      var slot := SlotOf(ClientKey(req), now, windowLen);
      && (!IsProtected(req.path) ==> st == Step(Forward, store))
      && (IsProtected(req.path) && KeyRejected(apiKey, req) ==> st == Step(Reject(401), store))
      && (IsProtected(req.path) && !KeyRejected(apiKey, req) ==>
            && st.store == Bump(store, slot)
            && (st.outcome == Forward <==> Hits(store, slot) < max)
            && (st.outcome != Forward ==> st.outcome == Reject(429)))
  {
  }

  /**
   * For a non-empty configured key, the middleware's key check and the
   * endpoint's own check agree. For an empty key they differ: the middleware
   * lets everyone through, the endpoint only a caller presenting the empty
   * key in the query string.
   */
  lemma AgreesWithEndpointCheck(apiKey: Option<string>, req: Request)
    ensures Truthy(apiKey) ==> (KeyRejected(apiKey, req) <==> !ApiGate.CheckApiKey(apiKey, req))
    ensures apiKey == Some("") ==> !KeyRejected(apiKey, req)
    ensures apiKey == Some("") ==> (ApiGate.CheckApiKey(apiKey, req) <==> !Truthy(req.headerKey) && req.queryKey == Some(""))
  {
  }

  /**
   * A caller who authenticates through the query string is counted by host,
   * so callers behind one host share a counter, and a caller who changes the
   * query key alone stays on the same counter.
   */
  lemma QueryKeyNotCounted(req: Request, q: Option<string>)
    requires !Truthy(req.headerKey)
    ensures ClientKey(req.(queryKey := q)) == ClientKey(req)
    ensures req.host != "" ==> ClientKey(req) == req.host
  {
  }

  /** One request seen by the middleware: the request and the clock reading. */
  datatype Call = Call(req: Request, now: int)

  datatype Trace = Trace(outcomes: seq<Outcome>, store: Store)

  /** The middleware applied to the calls in order. */
  function DispatchAll(apiKey: Option<string>, calls: seq<Call>, store: Store, windowLen: int, max: int): (t: Trace)
    requires windowLen != 0
    ensures |t.outcomes| == |calls|
    decreases |calls|
  {
    if calls == [] then Trace([], store)
    else
      var st := Gate(apiKey, calls[0].req, store, calls[0].now, windowLen, max);
      var rest := DispatchAll(apiKey, calls[1..], st.store, windowLen, max);
      Trace([st.outcome] + rest.outcomes, rest.store)
  }

  /** The slots that the calls charge: those of protected calls with an accepted key. */
  function Charged(apiKey: Option<string>, calls: seq<Call>, windowLen: int): seq<Slot>
    requires windowLen != 0
    decreases |calls|
  {
    if calls == [] then []
    else
      var c := calls[0];
      var head := if IsProtected(c.req.path) && !KeyRejected(apiKey, c.req)
        then [SlotOf(ClientKey(c.req), c.now, windowLen)] else [];
      head + Charged(apiKey, calls[1..], windowLen)
  }

  /**
   * The dictionary after a run of requests is what the limiter alone makes of
   * the charged slots: unprotected and unauthorised requests leave no trace.
   */
  lemma {:induction false} DispatchAllCharges(apiKey: Option<string>, calls: seq<Call>, store: Store, windowLen: int, max: int)
    requires windowLen != 0
    ensures DispatchAll(apiKey, calls, store, windowLen, max).store
         == Replay(store, Charged(apiKey, calls, windowLen), max).store
    decreases |calls|
  {
    if calls != [] {
      var c := calls[0];
      var st := Gate(apiKey, c.req, store, c.now, windowLen, max);
      DispatchAllCharges(apiKey, calls[1..], st.store, windowLen, max);
      var tail := Charged(apiKey, calls[1..], windowLen);
      if IsProtected(c.req.path) && !KeyRejected(apiKey, c.req) {
        var slot := SlotOf(ClientKey(c.req), c.now, windowLen);
        assert Charged(apiKey, calls, windowLen) == [slot] + tail;
        assert ([slot] + tail)[1..] == tail;
      } else {
        assert Charged(apiKey, calls, windowLen) == tail;
      }
    }
  }

  /** So each counter ends at its start plus the number of charged calls on its slot. */
  lemma CountersAfterRun(apiKey: Option<string>, calls: seq<Call>, store: Store, windowLen: int, max: int, x: Slot)
    requires windowLen != 0
    ensures Hits(DispatchAll(apiKey, calls, store, windowLen, max).store, x)
         == Hits(store, x) + multiset(Charged(apiKey, calls, windowLen))[x]
  {
    DispatchAllCharges(apiKey, calls, store, windowLen, max);
    ReplayCounts(store, Charged(apiKey, calls, windowLen), max, x);
  }

  /** How many calls charged to slot x were forwarded. */
  function ForwardedOn(apiKey: Option<string>, calls: seq<Call>, outcomes: seq<Outcome>, windowLen: int, x: Slot): nat
    requires windowLen != 0 && |outcomes| == |calls|
    decreases |calls|
  {
    if calls == [] then 0
    else
      var c := calls[0];
      var hit := IsProtected(c.req.path) && !KeyRejected(apiKey, c.req)
        && SlotOf(ClientKey(c.req), c.now, windowLen) == x && outcomes[0] == Forward;
      (if hit then 1 else 0) + ForwardedOn(apiKey, calls[1..], outcomes[1..], windowLen, x)
  }

  /** The forwarded calls on a slot are exactly the limiter's admissions on the charged slots. */
  lemma {:induction false} ForwardedAreAdmitted(apiKey: Option<string>, calls: seq<Call>, store: Store, windowLen: int, max: int, x: Slot)
    requires windowLen != 0
    ensures var charged := Charged(apiKey, calls, windowLen);
      ForwardedOn(apiKey, calls, DispatchAll(apiKey, calls, store, windowLen, max).outcomes, windowLen, x)
        == AdmittedOn(charged, Replay(store, charged, max).admitted, x)
    decreases |calls|
  {
    if calls != [] {
      var c := calls[0];
      var st := Gate(apiKey, c.req, store, c.now, windowLen, max);
      var t := DispatchAll(apiKey, calls, store, windowLen, max);
      var restT := DispatchAll(apiKey, calls[1..], st.store, windowLen, max);
      assert t.outcomes[1..] == restT.outcomes;
      ForwardedAreAdmitted(apiKey, calls[1..], st.store, windowLen, max, x);
      var tail := Charged(apiKey, calls[1..], windowLen);
      if IsProtected(c.req.path) && !KeyRejected(apiKey, c.req) {
        var slot := SlotOf(ClientKey(c.req), c.now, windowLen);
        var charged := [slot] + tail;
        assert Charged(apiKey, calls, windowLen) == charged;
        assert charged[1..] == tail;
        var r := Replay(store, charged, max);
        assert r.admitted[1..] == Replay(Bump(store, slot), tail, max).admitted;
        assert r.admitted[0] == (t.outcomes[0] == Forward);
      } else {
        assert Charged(apiKey, calls, windowLen) == tail;
      }
    }
  }

  /**
   * Within one window, the middleware forwards no more protected requests per
   * client than the quota left: at most max from an empty dictionary.
   */
  lemma ForwardsWithinQuota(apiKey: Option<string>, calls: seq<Call>, store: Store, windowLen: int, max: int, x: Slot)
    requires windowLen != 0
    ensures ForwardedOn(apiKey, calls, DispatchAll(apiKey, calls, store, windowLen, max).outcomes, windowLen, x)
         <= Room(store, x, max)
  {
    ForwardedAreAdmitted(apiKey, calls, store, windowLen, max, x);
    AdmitsWithinRoom(store, Charged(apiKey, calls, windowLen), max, x);
  }

  /**
   * The middleware: the configured key and its own limiter (the `_store`
   * created on first use, with RATE_LIMIT_MAX and RATE_LIMIT_WINDOW).
   */
  class APIMiddleware {
    const apiKey: Option<string>
    const limiter: Limiter

    constructor (apiKey: Option<string>, max: int, windowLen: int)
      requires windowLen != 0
      ensures this.apiKey == apiKey && fresh(limiter)
      ensures limiter.store == map[] && limiter.max == max && limiter.windowLen == windowLen
    {
      this.apiKey := apiKey;
      limiter := new Limiter(max, windowLen);
    }

    /** `dispatch(request, call_next)`; `Forward` stands for `call_next(request)`. */
    method Dispatch(req: Request, now: int) returns (outcome: Outcome)
      requires limiter.windowLen != 0
      modifies limiter
      ensures Step(outcome, limiter.store)
           == Gate(apiKey, req, old(limiter.store), now, limiter.windowLen, limiter.max)
    {
      if !IsProtected(req.path) {
        return Forward;
      }
      if Truthy(apiKey) {
        var key := if Truthy(req.headerKey) then req.headerKey else req.queryKey;
        if key != apiKey {
          return Reject(401);
        }
      }
      var ok := limiter.Allow(ClientKey(req), now);
      if !ok {
        return Reject(429);
      }
      return Forward;
    }
  }
}

/**
 * The key check and error order of the analysis endpoint
 * (src/maintainance_anomaly_detection/main.py:31-37 and 102-140): a payload
 * with neither values nor scores is a 400, a wrong key a 401, an exhausted
 * quota a 429, in that order; otherwise the scores are summarised.
 */
module ApiGate {
  import opened Http
  import opened RateLimit
  import opened AnomalyReport

  /** `_check_api_key`: everything passes when no key is configured. */
  function CheckApiKey(apiKey: Option<string>, req: Request): bool
  {
    apiKey.None? || PresentedKey(req) == apiKey
  }

  /**
   * With a key configured, a request passes exactly when its non-empty
   * header equals the key, or, when the header is missing or empty, its
   * query parameter does. A wrong non-empty header is never rescued by a
   * correct query parameter.
   */
  lemma CheckApiKeyMeaning(apiKey: Option<string>, req: Request)
    ensures apiKey.None? ==> CheckApiKey(apiKey, req)
    ensures apiKey.Some? ==>
      (CheckApiKey(apiKey, req) <==>
        (Truthy(req.headerKey) && req.headerKey.value == apiKey.value)
        || (!Truthy(req.headerKey) && req.queryKey == apiKey))
    ensures apiKey.Some? && Truthy(req.headerKey) && req.headerKey != apiKey ==> !CheckApiKey(apiKey, req)
  {
  }

  /** The counter key: the client host without a configured key, else `header or query or 'anon'`. */
  function AnalyzeRateKey(apiKey: Option<string>, req: Request): string
  {
    if apiKey.None? then req.host
    else if Truthy(req.headerKey) then req.headerKey.value
    else if Truthy(req.queryKey) then req.queryKey.value
    else "anon"
  }

  /**
   * Once a non-empty key is configured, every caller that passes the check is
   * counted under that key: all authorised clients share one quota.
   */
  lemma AuthorisedCallersShareOneCounter(apiKey: Option<string>, req: Request)
    requires Truthy(apiKey) && CheckApiKey(apiKey, req)
    ensures AnalyzeRateKey(apiKey, req) == apiKey.value
  {
  }

  /** `payload.get('values')` and `payload.get('scores')`: `None` when absent or null. */
  datatype Payload = Payload(values: Option<seq<real>>, scores: Option<seq<real>>)

  /** The endpoint's answer: an HTTP error, or the rule-based analysis. */
  datatype Reply = Error(status: int) | Analysis(summary: Summary)

  datatype Outcome = Outcome(reply: Reply, store: Store)

  /**
   * One call of the endpoint. `detect` stands for the model's scoring of
   * bare values (`None` when it raises) and `thresholdOf` for mean + 2 * std
   * of the scores.
   */
  function Analyzed(payload: Payload, apiKey: Option<string>, req: Request, store: Store, now: int,
                    windowLen: int, max: int, detect: seq<real> -> Option<seq<real>>,
                    thresholdOf: seq<real> -> real): Outcome
    requires windowLen != 0
  {
    if payload.scores.None? && payload.values.None? then Outcome(Error(400), store)
    else if !CheckApiKey(apiKey, req) then Outcome(Error(401), store)
    else
      var slot := SlotOf(AnalyzeRateKey(apiKey, req), now, windowLen);
      var after := Bump(store, slot);
      if Hits(after, slot) > max then Outcome(Error(429), after)
      else
        var scored := if payload.scores.Some? then Some(payload.scores.value) else detect(payload.values.value);
        if scored.None? then Outcome(Error(400), after)
        else Outcome(Analysis(Summarise(scored.value, thresholdOf(scored.value))), after)
  }

  /**
   * The error order: a missing payload is a 400 before any key check, a wrong
   * key a 401 before any counting (so it costs no quota), and only a call
   * that passed both is counted, under its own counter alone, and is a 429
   * exactly when that counter passed max. A model failure on bare values is
   * a 400 that has already been counted. Given scores are summarised as sent,
   * against their own threshold.
   */
  lemma ErrorPrecedence(payload: Payload, apiKey: Option<string>, req: Request, store: Store, now: int,
                        windowLen: int, max: int, detect: seq<real> -> Option<seq<real>>,
                        thresholdOf: seq<real> -> real)
    requires windowLen != 0
    ensures var o := Analyzed(payload, apiKey, req, store, now, windowLen, max, detect, thresholdOf);
      var slot := SlotOf(AnalyzeRateKey(apiKey, req), now, windowLen);
      && (payload.scores.None? && payload.values.None? ==> o == Outcome(Error(400), store))
      && (!(payload.scores.None? && payload.values.None?) && !CheckApiKey(apiKey, req) ==>
            o == Outcome(Error(401), store))
      && (!(payload.scores.None? && payload.values.None?) && CheckApiKey(apiKey, req) ==>
            && o.store == Bump(store, slot)
            && (o.reply == Error(429) <==> Hits(store, slot) >= max)
            && (Hits(store, slot) < max && payload.scores.Some? ==>
                  o.reply == Analysis(Summarise(payload.scores.value, thresholdOf(payload.scores.value))))
            && (Hits(store, slot) < max && payload.scores.None? ==>
                  (o.reply == Error(400) <==> detect(payload.values.value).None?)))
  {
  }

  /** `analyze` against the process-wide limiter. */
  method Analyze(limiter: Limiter, payload: Payload, apiKey: Option<string>, req: Request, now: int,
                 detect: seq<real> -> Option<seq<real>>, thresholdOf: seq<real> -> real) returns (reply: Reply)
    requires limiter.windowLen != 0
    modifies limiter
    ensures Outcome(reply, limiter.store)
         == Analyzed(payload, apiKey, req, old(limiter.store), now, limiter.windowLen, limiter.max, detect, thresholdOf)
  {
    if payload.scores.None? && payload.values.None? {
      return Error(400);
    }
    if !CheckApiKey(apiKey, req) {
      return Error(401);
    }
    var key := AnalyzeRateKey(apiKey, req);
    var ok := limiter.Allow(key, now);
    if !ok {
      return Error(429);
    }
    var scores: seq<real>;
    if payload.scores.Some? {
      scores := payload.scores.value;
    } else {
      var scored := detect(payload.values.value);
      if scored.None? {
        return Error(400);
      }
      scores := scored.value;
    }
    reply := Analysis(Summarise(scores, thresholdOf(scores)));
  }
}

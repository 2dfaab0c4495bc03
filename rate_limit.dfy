/**
 * The in-memory fallback of the fixed-window rate limiter, the same code in
 * the analysis endpoint (src/maintainance_anomaly_detection/main.py:39-58)
 * and in the API middleware (src/maintainance_anomaly_detection/middleware.py:43-60).
 * A dictionary maps f"{key}:{now // WINDOW}" to a count; every call adds one
 * to its own entry and admits while the count is at most RATE_LIMIT_MAX.
 */
module RateLimit {

  /** RATE_LIMIT_MAX and RATE_LIMIT_WINDOW when the environment sets neither. */
  const DefaultMax: int := 60
  const DefaultWindow: int := 60

  /**
   * A dictionary key: the client key and the window number. The source joins
   * them as "key:window"; a window number's decimal form holds no ':', so two
   * keys are equal exactly when both parts are.
   */
  datatype Slot = Slot(client: string, window: int)

  type Store = map<Slot, nat>

  /**
   * Python's `a // b`: the floor of a / b. Dafny's `/` is Euclidean, which
   * agrees with the floor for a positive divisor; for a negative one the
   * floor of a / b is the floor of (-a) / (-b).
   */
  function FloorDiv(a: int, b: int): (q: int)
    requires b != 0
    ensures b > 0 ==> q * b <= a < q * b + b
    ensures b < 0 ==> q * b >= a > q * b + b
  {
    if b > 0 then a / b else (-a) / (-b)
  }

  /** The slot of a call at time `now`: the client and `now // windowLen`. */
  function SlotOf(client: string, now: int, windowLen: int): Slot
    requires windowLen != 0
  {
    Slot(client, FloorDiv(now, windowLen))
  }

  /** `store.get(k, 0)`. */
  function Hits(store: Store, slot: Slot): nat
  {
    if slot in store then store[slot] else 0
  }

  /** `store[k] = store.get(k, 0) + 1`: one more hit on `slot`, every other counter untouched. */
  function Bump(store: Store, slot: Slot): (r: Store)
    ensures Hits(r, slot) == Hits(store, slot) + 1
    ensures forall other :: other != slot ==> Hits(r, other) == Hits(store, other)
    ensures r.Keys == store.Keys + {slot}
  {
    store[slot := Hits(store, slot) + 1]
  }

  /** A run of calls: the final dictionary and the answer given to each call. */
  datatype Run = Run(store: Store, admitted: seq<bool>)

  /** The calls on `slots`, one after the other, starting from `store`. */
  function Replay(store: Store, slots: seq<Slot>, max: int): (r: Run)
    ensures |r.admitted| == |slots|
    decreases |slots|
  {
    if slots == [] then Run(store, [])
    else
      var after := Bump(store, slots[0]);
      var rest := Replay(after, slots[1..], max);
      Run(rest.store, [Hits(after, slots[0]) <= max] + rest.admitted)
  }

  /** After a run, each counter has grown by the number of calls on its slot, and by nothing else. */
  lemma {:induction false} ReplayCounts(store: Store, slots: seq<Slot>, max: int, x: Slot)
    ensures Hits(Replay(store, slots, max).store, x) == Hits(store, x) + multiset(slots)[x]
    decreases |slots|
  {
    if slots != [] {
      ReplayCounts(Bump(store, slots[0]), slots[1..], max, x);
      assert slots == [slots[0]] + slots[1..];
    }
  }

  /** The first call of a run is answered on its own count; the rest is a run from the bumped dictionary. */
  lemma ReplayUnfold(store: Store, slots: seq<Slot>, max: int)
    requires slots != []
    ensures var after := Bump(store, slots[0]);
      var r := Replay(store, slots, max);
      && r.admitted[0] == (Hits(after, slots[0]) <= max)
      && r.admitted[1..] == Replay(after, slots[1..], max).admitted
  {
  }

  /** Occurrences of x in the first i + 1 calls: the first call, then i calls of the rest. */
  lemma PrefixCount(slots: seq<Slot>, i: nat, x: Slot)
    requires 0 < i < |slots|
    ensures multiset(slots[..i + 1])[x] == (if slots[0] == x then 1 else 0) + multiset(slots[1..][..i])[x]
  {
    assert slots[..i + 1] == [slots[0]] + slots[1..][..i];
  }

  /**
   * Call i is admitted exactly when the count of its slot (what was stored
   * before, plus the calls on that slot up to and including i) is at most
   * max. Calls on other clients or other windows do not matter.
   */
  lemma {:induction false} ReplayAdmits(store: Store, slots: seq<Slot>, max: int, i: int)
    requires 0 <= i < |slots|
    ensures Replay(store, slots, max).admitted[i]
        == (Hits(store, slots[i]) + multiset(slots[..i + 1])[slots[i]] <= max)
    decreases |slots|
  {
    var after := Bump(store, slots[0]);
    var x := slots[i];
    ReplayUnfold(store, slots, max);
    if i > 0 {
      ReplayAdmits(after, slots[1..], max, i - 1);
      assert slots[1..][i - 1] == x;
      PrefixCount(slots, i, x);
    } else {
      assert slots[..1] == [x];
    }
  }

  /** A sequence of n copies of x holds x n times. */
  lemma {:induction false} CountOfCopies(s: seq<Slot>, x: Slot)
    requires forall j :: 0 <= j < |s| ==> s[j] == x
    ensures multiset(s)[x] == |s|
  {
    if s != [] {
      CountOfCopies(s[1..], x);
      assert s == [s[0]] + s[1..];
    }
  }

  /**
   * Within one window, for a client with no count yet, the first max calls
   * are admitted and every later call is refused.
   */
  lemma OneWindowAdmitsFirstMax(store: Store, slots: seq<Slot>, x: Slot, max: int, i: int)
    requires Hits(store, x) == 0
    requires forall j :: 0 <= j < |slots| ==> slots[j] == x
    requires 0 <= i < |slots|
    ensures Replay(store, slots, max).admitted[i] == (i < max)
  {
    ReplayAdmits(store, slots, max, i);
    CountOfCopies(slots[..i + 1], x);
  }

  /** Every time in [60k, 60k + 60) falls in window k. */
  lemma MinuteOf(t: int, k: int)
    requires 60 * k <= t < 60 * k + 60
    ensures FloorDiv(t, DefaultWindow) == k
  {
    var q := FloorDiv(t, DefaultWindow);
    assert (q - k) * 60 < 60 && (k - q) * 60 < 60;
  }

  /**
   * With the defaults (60 calls per 60 seconds), a client with no count yet
   * that calls at times inside one minute [60k, 60k + 60) has its first 60
   * calls admitted and every later one refused.
   */
  lemma DefaultConfiguration(store: Store, client: string, times: seq<int>, k: int, i: int)
    requires Hits(store, Slot(client, k)) == 0
    requires forall j :: 0 <= j < |times| ==> 60 * k <= times[j] < 60 * k + 60
    requires 0 <= i < |times|
    ensures Replay(store, seq(|times|, j requires 0 <= j < |times| => SlotOf(client, times[j], DefaultWindow)), DefaultMax).admitted[i]
         == (i < 60)
  {
    var slots := seq(|times|, j requires 0 <= j < |times| => SlotOf(client, times[j], DefaultWindow));
    forall j | 0 <= j < |times|
      ensures slots[j] == Slot(client, k)
    {
      MinuteOf(times[j], k);
    }
    OneWindowAdmitsFirstMax(store, slots, Slot(client, k), DefaultMax, i);
  }

  /** How many of the calls on slot x were admitted. */
  function AdmittedOn(slots: seq<Slot>, admitted: seq<bool>, x: Slot): nat
    requires |admitted| == |slots|
    decreases |slots|
  {
    if slots == [] then 0
    else (if slots[0] == x && admitted[0] then 1 else 0) + AdmittedOn(slots[1..], admitted[1..], x)
  }

  /** The quota left on a slot: max minus its count, and never below zero. */
  function Room(store: Store, x: Slot, max: int): nat
  {
    if max - Hits(store, x) > 0 then max - Hits(store, x) else 0
  }

  /**
   * However the calls of all clients interleave, a slot admits no more calls
   * than the quota it had left: at most max per client and window.
   */
  lemma {:induction false} AdmitsWithinRoom(store: Store, slots: seq<Slot>, max: int, x: Slot)
    ensures AdmittedOn(slots, Replay(store, slots, max).admitted, x) <= Room(store, x, max)
    decreases |slots|
  {
    if slots != [] {
      var after := Bump(store, slots[0]);
      var r := Replay(store, slots, max);
      var rest := Replay(after, slots[1..], max);
      AdmitsWithinRoom(after, slots[1..], max, x);
      assert r.admitted[1..] == rest.admitted;
    }
  }

  /**
   * The limiter's state. `store` is the dictionary the source creates on
   * first use; `max` and `windowLen` are RATE_LIMIT_MAX and RATE_LIMIT_WINDOW.
   */
  class Limiter {
    var store: Store
    const max: int
    const windowLen: int

    constructor (max: int, windowLen: int)
      requires windowLen != 0
      ensures store == map[] && this.max == max && this.windowLen == windowLen
    {
      store := map[];
      this.max := max;
      this.windowLen := windowLen;
    }

    /** `_rate_limit(key)` at time `now`: count the call, then admit while the count is at most max. */
    method Allow(client: string, now: int) returns (ok: bool)
      requires windowLen != 0
      modifies this
      ensures store == Bump(old(store), SlotOf(client, now, windowLen))
      ensures ok == (Hits(store, SlotOf(client, now, windowLen)) <= max)
    {
      var k := Slot(client, FloorDiv(now, windowLen));
      var count := (if k in store then store[k] else 0) + 1;
      store := store[k := count];
      ok := count <= max;
    }
  }
}

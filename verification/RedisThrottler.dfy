/**
 * The distributed rate limiter (backend/src/common/throttler/redis-throttler-storage.ts).
 *
 * Redis runs the Lua script as one atomic step, so several pods sharing a store are an
 * arbitrary interleaving of script runs. Times are integer milliseconds. Whether a key
 * still exists in the very millisecond of its deadline is left open (`keep`): every
 * result below holds for both answers.
 */
module RedisThrottler {

  datatype Option<T> = None | Some(value: T)

  datatype Entry = Entry(value: int, expireAt: Option<int>)
  type Cell = Option<Entry>

  datatype Policy = Policy(ttl: int, limit: int, blockDuration: int, keep: bool)

  datatype Reply = Reply(totalHits: int, timeToExpire: int, isBlocked: bool, timeToBlockExpire: int)

  /** What the store holds under the two keys of one throttled identity. */
  datatype Bucket = Bucket(hits: Cell, block: Cell)

  predicate Usable(p: Policy) { p.ttl > 0 && p.limit >= 0 && p.blockDuration > 0 }

  predicate Exists(c: Cell, now: int, keep: bool) {
    c.Some? && (c.value.expireAt.None? || now < c.value.expireAt.value || (keep && now == c.value.expireAt.value))
  }

  /** PTTL: -2 for no key, -1 for a key without expiry, else what is left. */
  function Pttl(c: Cell, now: int, keep: bool): int {
    if !Exists(c, now, keep) then -2
    else if c.value.expireAt.None? then -1
    else c.value.expireAt.value - now
  }

  /** SET with PX refuses a block that is not positive; the script stops there, what it wrote before stays. */
  predicate ScriptFails(b: Bucket, p: Policy, now: int) {
    Pttl(b.block, now, p.keep) <= 0 && p.blockDuration <= 0
    && (if Exists(b.hits, now, p.keep) then b.hits.value.value else 0) + 1 > p.limit
  }

  /** One run of the script on the two cells; PEXPIRE with a window that is not positive deletes the counter. */
  function Step(b: Bucket, p: Policy, now: int): (Bucket, Reply) {
    var blockTtl := Pttl(b.block, now, p.keep);
    if blockTtl > 0 then
      var hits := if Exists(b.hits, now, p.keep) then b.hits.value.value else p.limit + 1;
      var hitsTtl := Pttl(b.hits, now, p.keep);
      (b, Reply(hits, if hitsTtl < 0 then p.ttl else hitsTtl, true, blockTtl))
    else
      var total := (if Exists(b.hits, now, p.keep) then b.hits.value.value else 0) + 1;
      var left := Pttl(b.hits, now, p.keep);
      var window := if left <= 0 then p.ttl else left;
      var hits := if window <= 0 then None else Some(Entry(total, Some(now + window)));
      if total > p.limit then
        (Bucket(hits, if p.blockDuration <= 0 then b.block else Some(Entry(1, Some(now + p.blockDuration)))),
         Reply(total, window, true, p.blockDuration))
      else
        (Bucket(hits, b.block), Reply(total, window, false, 0))
  }

  // -------------------------------------------------------------- the store

  type Store = map<string, Entry>

  function Get(store: Store, key: string): Cell { if key in store then Some(store[key]) else None }

  function HitsKey(prefix: string, key: string): string { prefix + ":" + key }

  function BlockKey(prefix: string, key: string): string { prefix + ":block:" + key }

  function View(store: Store, prefix: string, key: string): Bucket {
    Bucket(Get(store, HitsKey(prefix, key)), Get(store, BlockKey(prefix, key)))
  }

  /** How a call to Redis ends: answered, not run at all, or run with its answer lost. */
  datatype Link = Answered | NotRun | AnswerLost

  /** The policy for calls without an answer. */
  function Fallback(p: Policy, failClosed: bool): Reply {
    if failClosed then Reply(p.limit + 1, p.ttl, true, p.blockDuration) else Reply(0, p.ttl, false, 0)
  }

  class RedisThrottlerStorage {
    const prefix: string
    const failClosed: bool
    var store: Store
    var warnedDown: bool

    constructor (prefix: string, failClosed: bool)
      ensures this.prefix == prefix && this.failClosed == failClosed && store == map[] && !warnedDown
    {
      this.prefix, this.failClosed := prefix, failClosed;
      store, warnedDown := map[], false;
    }

    method Incr(key: string, now: int, keep: bool) returns (total: int)
      modifies this`store
      ensures var c := old(Get(store, key));
              total == (if Exists(c, now, keep) then c.value.value else 0) + 1
              && store == old(store)[key := Entry(total, if Exists(c, now, keep) then c.value.expireAt else None)]
    {
      if Exists(Get(store, key), now, keep) {
        total := store[key].value + 1;
        store := store[key := Entry(total, store[key].expireAt)];
      } else {
        total := 1;
        store := store[key := Entry(1, None)];
      }
    }

    /** The Lua script. */
    method Script(hitsKey: string, blockKey: string, p: Policy, now: int) returns (ok: bool, reply: Reply)
      requires hitsKey != blockKey
      modifies this`store
      ensures var b := old(Bucket(Get(store, hitsKey), Get(store, blockKey)));
              && Bucket(Get(store, hitsKey), Get(store, blockKey)) == Step(b, p, now).0
              && ok == !ScriptFails(b, p, now) && (ok ==> reply == Step(b, p, now).1)
      ensures forall k :: k != hitsKey && k != blockKey ==> Get(store, k) == old(Get(store, k))
    {
      var blockTtl := Pttl(Get(store, blockKey), now, p.keep);
      if blockTtl > 0 {
        var hits := if Exists(Get(store, hitsKey), now, p.keep) then store[hitsKey].value else p.limit + 1;
        var hitsTtl := Pttl(Get(store, hitsKey), now, p.keep);
        if hitsTtl < 0 { hitsTtl := p.ttl; }
        return true, Reply(hits, hitsTtl, true, blockTtl);
      }
      var totalHits := Incr(hitsKey, now, p.keep);
      var timeToExpire := Pttl(Get(store, hitsKey), now, p.keep);
      if timeToExpire <= 0 {
        store := if p.ttl <= 0 then store - {hitsKey} else store[hitsKey := Entry(totalHits, Some(now + p.ttl))];
        timeToExpire := p.ttl;
      }
      var isBlocked, timeToBlockExpire := false, 0;
      if totalHits > p.limit {
        reply := Reply(totalHits, timeToExpire, true, p.blockDuration);
        if p.blockDuration <= 0 { return false, reply; }
        store := store[blockKey := Entry(1, Some(now + p.blockDuration))];
        isBlocked, timeToBlockExpire := true, p.blockDuration;
      }
      ok, reply := true, Reply(totalHits, timeToExpire, isBlocked, timeToBlockExpire);
    }

    /** The script and the reply built from it; without an answer the policy decides, and warns once. */
    method Increment(key: string, p: Policy, now: int, link: Link) returns (reply: Reply)
      modifies this`store, this`warnedDown
      ensures var b := old(View(store, prefix, key));
              var answered := link.Answered? && !ScriptFails(b, p, now);
              && View(store, prefix, key) == (if link.NotRun? then b else Step(b, p, now).0)
              && (answered ==> reply == Step(b, p, now).1)
              && (!answered && failClosed ==> reply == Reply(p.limit + 1, p.ttl, true, p.blockDuration))
              && (!answered && !failClosed ==> reply == Reply(0, p.ttl, false, 0))
              && warnedDown == (old(warnedDown) || !answered)
      ensures forall k :: k != HitsKey(prefix, key) && k != BlockKey(prefix, key)
                ==> Get(store, k) == old(Get(store, k))
    {
      var hitsKey, blockKey := HitsKey(prefix, key), BlockKey(prefix, key);
      assert |hitsKey| < |blockKey|;
      var ok := false;
      if !link.NotRun? { ok, reply := Script(hitsKey, blockKey, p, now); }
      if !ok || link.AnswerLost? {
        warnedDown := true;
        reply := Fallback(p, failClosed);
      }
    }
  }

  // ------------------------------------------------- request streams, one key

  ghost predicate Ordered(now: int, times: seq<int>)
    decreases |times|
  {
    times != [] ==> now <= times[0] && Ordered(times[0], times[1..])
  }

  function Final(b: Bucket, p: Policy, times: seq<int>): Bucket
    decreases |times|
  {
    if times == [] then b else Final(Step(b, p, times[0]).0, p, times[1..])
  }

  function Replies(b: Bucket, p: Policy, times: seq<int>): (rs: seq<Reply>)
    ensures |rs| == |times|
    decreases |times|
  {
    if times == [] then []
    else var (b', r) := Step(b, p, times[0]); [r] + Replies(b', p, times[1..])
  }

  /** Requests let through at a time in `[from, to)`. */
  function Admitted(b: Bucket, p: Policy, times: seq<int>, from: int, to: int): nat
    decreases |times|
  {
    if times == [] then 0
    else
      var (b', r) := Step(b, p, times[0]);
      (if from <= times[0] < to && !r.isBlocked then 1 else 0) + Admitted(b', p, times[1..], from, to)
  }

  const EMPTY: Bucket := Bucket(None, None)

  /**
   * What every run from an empty store keeps: counters start at 1, carry a deadline no
   * more than one window away, and an active block goes with a counter over the limit.
   */
  ghost predicate Sound(b: Bucket, p: Policy, now: int) {
    && (b.hits.Some? ==> b.hits.value.value >= 1 && b.hits.value.expireAt.Some?
                         && b.hits.value.expireAt.value <= now + p.ttl)
    && (b.block.Some? ==> b.block.value.expireAt.Some?)
    && (Pttl(b.block, now, p.keep) > 0 && Exists(b.hits, now, p.keep) ==> b.hits.value.value > p.limit)
  }

  lemma {:induction false} SoundAlways(b: Bucket, p: Policy, now: int, times: seq<int>)
    requires Usable(p) && Sound(b, p, now) && Ordered(now, times)
    ensures forall i | 0 <= i < |times| :: Replies(b, p, times)[i].isBlocked ==>
                                             Replies(b, p, times)[i].totalHits > p.limit
    ensures forall i | 0 <= i < |times| :: Replies(b, p, times)[i].isBlocked <==>
                                             Replies(b, p, times)[i].timeToBlockExpire > 0
    ensures forall i | 0 <= i < |times| && !Replies(b, p, times)[i].isBlocked :: Replies(b, p, times)[i].timeToBlockExpire == 0
    decreases |times|
  {
    if times != [] {
      var b' := Step(b, p, times[0]).0;
      assert Sound(b', p, times[0]);
      SoundAlways(b', p, times[0], times[1..]);
    }
  }

  /** Blocked replies of any stream from an empty store report more than `limit` hits. */
  lemma BlockedRepliesReportExcess(p: Policy, start: int, times: seq<int>)
    requires Usable(p) && Ordered(start, times)
    ensures forall r | r in Replies(EMPTY, p, times) :: r.isBlocked ==> r.totalHits > p.limit
  {
    SoundAlways(EMPTY, p, start, times);
  }

  // -------------------------------------------------------------- the window

  function Left(b: Bucket, p: Policy): nat {
    if b.hits.Some? && b.hits.value.value < p.limit then p.limit - b.hits.value.value else 0
  }

  /** The most two adjoining windows can let through in one interval of window length. */
  function TwoWindows(limit: int): int { if limit <= 0 then 0 else 2 * limit - 1 }

  /** What may still be let through in `[from, from + ttl)` when it is `now`. */
  ghost function Budget(b: Bucket, p: Policy, now: int, from: int): int
    requires Sound(b, p, now)
  {
    if now >= from + p.ttl then 0
    else if b.hits.Some? && now < b.hits.value.expireAt.value then
      var deadline := b.hits.value.expireAt.value;
      if deadline < from then TwoWindows(p.limit)
      else if deadline < from + p.ttl then Left(b, p) + p.limit
      else Left(b, p)
    else if now >= from then p.limit
    else TwoWindows(p.limit)
  }

  lemma BudgetOverTime(b: Bucket, p: Policy, now: int, later: int, from: int)
    requires Usable(p) && Sound(b, p, now) && now <= later
    ensures Sound(b, p, later)
    ensures Budget(b, p, later, from) <= Budget(b, p, now, from)
  {
  }

  lemma BudgetPays(b: Bucket, p: Policy, now: int, from: int)
    requires Usable(p) && Sound(b, p, now)
    ensures var (b', r) := Step(b, p, now);
            Sound(b', p, now)
            && Budget(b', p, now, from) + (if from <= now < from + p.ttl && !r.isBlocked then 1 else 0)
               <= Budget(b, p, now, from)
  {
  }

  lemma {:induction false} WithinBudget(b: Bucket, p: Policy, now: int, times: seq<int>, from: int)
    requires Usable(p) && Sound(b, p, now) && Ordered(now, times)
    ensures Admitted(b, p, times, from, from + p.ttl) <= Budget(b, p, now, from)
    decreases |times|
  {
    if times != [] {
      BudgetOverTime(b, p, now, times[0], from);
      BudgetPays(b, p, times[0], from);
      WithinBudget(Step(b, p, times[0]).0, p, times[0], times[1..], from);
    }
  }

  /** No interval as long as the window lets more than `2 * limit - 1` requests through. */
  lemma SlidingBound(p: Policy, start: int, times: seq<int>, from: int)
    requires Usable(p) && Ordered(start, times)
    ensures Admitted(EMPTY, p, times, from, from + p.ttl) <= if p.limit == 0 then 0 else 2 * p.limit - 1
  {
    WithinBudget(EMPTY, p, start, times, from);
  }

  function Same(t: int, n: nat): seq<int> { if n == 0 then [] else [t] + Same(t, n - 1) }

  /** A burst within an armed window and within the limit passes whole. */
  lemma {:induction false} Burst(value: int, end: int, p: Policy, t: int, n: nat, rest: seq<int>, from: int, to: int)
    requires t < end && value + n <= p.limit
    ensures Admitted(Bucket(Some(Entry(value, Some(end))), None), p, Same(t, n) + rest, from, to)
            == (if from <= t < to then n else 0)
               + Admitted(Bucket(Some(Entry(value + n, Some(end))), None), p, rest, from, to)
    decreases n
  {
    if n == 0 {
      assert Same(t, n) + rest == rest;
    } else {
      assert (Same(t, n) + rest)[1..] == Same(t, n - 1) + rest;
      Burst(value + 1, end, p, t, n - 1, rest, from, to);
    }
  }

  /** The full window at the end of the stream. */
  lemma SecondBurst(value: int, p: Policy)
    requires Usable(p) && p.limit >= 1 && p.ttl >= 3
    ensures Admitted(Bucket(Some(Entry(value, Some(p.ttl))), None), p, [p.ttl + 1] + Same(p.ttl + 1, p.limit - 1), 2, 2 + p.ttl)
            == p.limit
  {
    var second := [p.ttl + 1] + Same(p.ttl + 1, p.limit - 1);
    assert second[1..] == Same(p.ttl + 1, p.limit - 1) + [];
    Burst(1, 2 * p.ttl + 1, p, p.ttl + 1, p.limit - 1, [], 2, 2 + p.ttl);
  }

  /** The sliding bound is reached: a late burst of one window meets the full next one. */
  lemma SlidingBoundIsTight(p: Policy)
    requires Usable(p) && p.limit >= 1 && p.ttl >= 3
    ensures var times := [0] + (Same(2, p.limit - 1) + ([p.ttl + 1] + Same(p.ttl + 1, p.limit - 1)));
            Admitted(EMPTY, p, times, 2, 2 + p.ttl) == 2 * p.limit - 1
  {
    var second := [p.ttl + 1] + Same(p.ttl + 1, p.limit - 1);
    var times := [0] + (Same(2, p.limit - 1) + second);
    assert times[1..] == Same(2, p.limit - 1) + second;
    Burst(1, p.ttl, p, 2, p.limit - 1, second, 2, 2 + p.ttl);
    SecondBurst(p.limit, p);
  }

  /** Inside one armed window only the counter decides, whatever the block does. */
  lemma {:induction false} InsideWindow(b: Bucket, p: Policy, now: int, times: seq<int>, end: int)
    requires Usable(p) && Sound(b, p, now) && Ordered(now, times)
    requires b.hits.Some? && b.hits.value.expireAt == Some(end)
    requires forall t | t in times :: t < end
    requires b.hits.value.value <= p.limit ==> Pttl(b.block, now, p.keep) <= 0
    ensures forall i | 0 <= i < |times| ::
              Replies(b, p, times)[i].isBlocked <==> b.hits.value.value + i >= p.limit
    decreases |times|
  {
    if times != [] {
      var t := times[0];
      assert t in times;
      var b' := Step(b, p, t).0;
      BudgetPays(b, p, t, t);
      assert forall u | u in times[1..] :: u in times;
      InsideWindow(b', p, t, times[1..], end);
    }
  }

  /** From a store without live keys, exactly the first `limit` requests of the window pass. */
  lemma FirstLimitPass(b: Bucket, p: Policy, times: seq<int>)
    requires Usable(p) && times != [] && Ordered(times[0], times)
    requires Sound(b, p, times[0])
    requires !Exists(b.hits, times[0], p.keep) && Pttl(b.block, times[0], p.keep) <= 0
    requires forall t | t in times :: t < times[0] + p.ttl
    ensures forall i | 0 <= i < |times| :: Replies(b, p, times)[i].isBlocked <==> i >= p.limit
  {
    var t := times[0];
    var b' := Step(b, p, t).0;
    assert forall u | u in times[1..] :: u in times;
    InsideWindow(b', p, t, times[1..], t + p.ttl);
  }

  // ------------------------------------------------------------- the lockout

  /** Nothing can pass before `end`: a block or an exhausted counter lasts that long. */
  ghost predicate LockedUntil(b: Bucket, p: Policy, end: int) {
    || (b.block.Some? && b.block.value.expireAt.Some? && end <= b.block.value.expireAt.value)
    || (b.hits.Some? && b.hits.value.expireAt.Some? && end <= b.hits.value.expireAt.value
        && b.hits.value.value > p.limit)
  }

  lemma {:induction false} LockHolds(b: Bucket, p: Policy, now: int, times: seq<int>, end: int)
    requires Usable(p) && Ordered(now, times) && LockedUntil(b, p, end)
    ensures forall i | 0 <= i < |times| && times[i] < end :: Replies(b, p, times)[i].isBlocked
    decreases |times|
  {
    if times != [] {
      if times[0] < end {
        LockHolds(Step(b, p, times[0]).0, p, times[0], times[1..], end);
      } else {
        NotBefore(times[0], times[1..], end);
      }
    }
  }

  lemma {:induction false} NotBefore(now: int, times: seq<int>, end: int)
    requires Ordered(now, times) && end <= now
    ensures forall i | 0 <= i < |times| :: end <= times[i]
    decreases |times|
  {
    if times != [] { NotBefore(times[0], times[1..], end); }
  }

  /**
   * A request that exceeds the limit at `t`, in a window ending at `e`, shuts the key until
   * both the window and the block are over, whatever else arrives.
   */
  lemma ExcessLocksOut(b: Bucket, p: Policy, t: int, times: seq<int>)
    requires Usable(p) && Sound(b, p, t) && Ordered(t, times)
    requires Pttl(b.block, t, p.keep) <= 0 && Step(b, p, t).1.isBlocked
    ensures var b' := Step(b, p, t).0;
            var e := t + Step(b, p, t).1.timeToExpire;
            forall i | 0 <= i < |times| && (times[i] < e || times[i] < t + p.blockDuration) ::
              Replies(b', p, times)[i].isBlocked
  {
    var (b', r) := Step(b, p, t);
    LockHolds(b', p, t, times, t + r.timeToExpire);
    LockHolds(b', p, t, times, t + p.blockDuration);
  }

  // ------------------------------------------------- what the replies report

  /** The script fails exactly when it would start a block that lasts no time. */
  lemma ScriptFailsIff(b: Bucket, p: Policy, now: int)
    ensures ScriptFails(b, p, now)
            <==> p.blockDuration <= 0 && Step(b, p, now).1.isBlocked && Pttl(b.block, now, p.keep) <= 0
  {
  }

  /**
   * Answered from a block that ends at `end`: every reply is blocked and reports what is left of
   * the block; hits and window are those of the counter while it lives, else one too many and a
   * whole window.
   */
  lemma {:induction false} AnswersFromBlock(b: Bucket, p: Policy, now: int, times: seq<int>, end: int)
    requires Ordered(now, times) && b.block.Some? && b.block.value.expireAt == Some(end)
    ensures forall i | 0 <= i < |times| && times[i] < end ::
              var r := Replies(b, p, times)[i];
              && r.isBlocked && times[i] + r.timeToBlockExpire == end
              && if b.hits.Some? && b.hits.value.expireAt.Some? && times[i] < b.hits.value.expireAt.value
                 then r.totalHits == b.hits.value.value && times[i] + r.timeToExpire == b.hits.value.expireAt.value
                 else b.hits.Some? || (r.totalHits == p.limit + 1 && r.timeToExpire == p.ttl)
    decreases |times|
  {
    if times != [] {
      if times[0] < end {
        assert Step(b, p, times[0]).0 == b;
        AnswersFromBlock(b, p, times[0], times[1..], end);
      } else {
        NotBefore(times[0], times[1..], end);
      }
    }
  }

  /**
   * The request at `t` that exceeds the limit is told the whole block, and every later one that is
   * answered from it what is left: the same end, `blockDuration` after `t`.
   */
  lemma BlockCountsDown(b: Bucket, p: Policy, t: int, times: seq<int>)
    requires Usable(p) && Sound(b, p, t) && Ordered(t, times)
    requires Pttl(b.block, t, p.keep) <= 0 && Step(b, p, t).1.isBlocked
    ensures Step(b, p, t).1.timeToBlockExpire == p.blockDuration
    ensures forall i | 0 <= i < |times| && times[i] < t + p.blockDuration ::
              Replies(Step(b, p, t).0, p, times)[i].isBlocked
              && times[i] + Replies(Step(b, p, t).0, p, times)[i].timeToBlockExpire == t + p.blockDuration
  {
    AnswersFromBlock(Step(b, p, t).0, p, t, times, t + p.blockDuration);
  }

  /** While the window is armed every reply, admitted or blocked, reports its one deadline. */
  lemma {:induction false} WindowCountsDown(b: Bucket, p: Policy, now: int, times: seq<int>, end: int)
    requires Usable(p) && Sound(b, p, now) && Ordered(now, times)
    requires b.hits.Some? && b.hits.value.expireAt == Some(end)
    ensures forall i | 0 <= i < |times| && times[i] < end :: times[i] + Replies(b, p, times)[i].timeToExpire == end
    decreases |times|
  {
    if times != [] {
      if times[0] < end {
        BudgetPays(b, p, times[0], times[0]);
        WindowCountsDown(Step(b, p, times[0]).0, p, times[0], times[1..], end);
      } else {
        NotBefore(times[0], times[1..], end);
      }
    }
  }

  /** The first request of a window fixes that deadline: one window after itself. */
  lemma WindowStarts(b: Bucket, p: Policy, times: seq<int>)
    requires Usable(p) && times != [] && Ordered(times[0], times) && Sound(b, p, times[0])
    requires !Exists(b.hits, times[0], p.keep) && Pttl(b.block, times[0], p.keep) <= 0
    ensures Replies(b, p, times)[0].totalHits == 1
    ensures forall i | 0 <= i < |times| && times[i] < times[0] + p.ttl ::
              times[i] + Replies(b, p, times)[i].timeToExpire == times[0] + p.ttl
  {
    var t := times[0];
    BudgetPays(b, p, t, t);
    WindowCountsDown(Step(b, p, t).0, p, t, times[1..], t + p.ttl);
  }

  /** Within a window each request up to the first excess is told its number. */
  lemma {:induction false} HitsCountUp(b: Bucket, p: Policy, now: int, times: seq<int>, end: int)
    requires Usable(p) && Sound(b, p, now) && Ordered(now, times)
    requires b.hits.Some? && b.hits.value.expireAt == Some(end) && (forall t | t in times :: t < end)
    requires Pttl(b.block, now, p.keep) <= 0 && b.hits.value.value <= p.limit
    ensures forall i | 0 <= i < |times| && b.hits.value.value + i <= p.limit ::
              Replies(b, p, times)[i].totalHits == b.hits.value.value + i + 1
    decreases |times|
  {
    if times != [] {
      assert times[0] in times && forall u | u in times[1..] :: u in times;
      var b' := Step(b, p, times[0]).0;
      BudgetPays(b, p, times[0], times[0]);
      if b'.hits.value.value <= p.limit { HitsCountUp(b', p, times[0], times[1..], end); }
    }
  }

  /** Left alone, the key opens again at the end of the longer of the two. */
  lemma ReopensAfterBoth(b: Bucket, p: Policy, t: int, x: int)
    requires Usable(p) && p.limit >= 1 && Sound(b, p, t) && t <= x
    requires Pttl(b.block, t, p.keep) <= 0 && Step(b, p, t).1.isBlocked
    ensures var b' := Step(b, p, t).0;
            var e := t + Step(b, p, t).1.timeToExpire;
            !Step(b', p, x).1.isBlocked <==>
            x >= t + p.blockDuration && (if p.keep then x > e else x >= e)
  {
  }

  /** A call answered from the block changes neither key. */
  lemma {:induction false} BlockedCallsAreInert(b: Bucket, p: Policy, now: int, times: seq<int>)
    requires Ordered(now, times)
    requires forall t | t in times :: Pttl(b.block, t, p.keep) > 0
    ensures Final(b, p, times) == b
    decreases |times|
  {
    if times != [] {
      assert times[0] in times;
      BlockedCallsAreInert(b, p, times[0], times[1..]);
    }
  }

  // ------------------------------------------- many keys, many pods, one store

  datatype Request = Request(key: string, now: int, policy: Policy)

  function ServeOne(store: Store, prefix: string, r: Request): Store {
    var b := Step(View(store, prefix, r.key), r.policy, r.now).0;
    var hitsKey := HitsKey(prefix, r.key);
    var withHits := if b.hits.Some? then store[hitsKey := b.hits.value] else store - {hitsKey};
    if b.block.Some? then withHits[BlockKey(prefix, r.key) := b.block.value] else withHits
  }

  /** Requests for `key` let through in `[from, to)` while all requests are served in turn. */
  function Served(store: Store, prefix: string, reqs: seq<Request>, key: string, from: int, to: int): nat
    decreases |reqs|
  {
    if reqs == [] then 0
    else
      var r := reqs[0];
      var reply := Step(View(store, prefix, r.key), r.policy, r.now).1;
      (if r.key == key && from <= r.now < to && !reply.isBlocked then 1 else 0)
      + Served(ServeOne(store, prefix, r), prefix, reqs[1..], key, from, to)
  }

  function TimesOf(reqs: seq<Request>, key: string): seq<int>
    decreases |reqs|
  {
    if reqs == [] then []
    else (if reqs[0].key == key then [reqs[0].now] else []) + TimesOf(reqs[1..], key)
  }

  ghost predicate InOrder(now: int, reqs: seq<Request>)
    decreases |reqs|
  {
    reqs != [] ==> now <= reqs[0].now && InOrder(reqs[0].now, reqs[1..])
  }

  /** Neither identity spells the other one's block key. */
  predicate Apart(k: string, k': string) { k != "block:" + k' && k' != "block:" + k }

  lemma KeysMeetIff(prefix: string, k: string, k': string)
    requires k != k'
    ensures Apart(k, k') <==>
            {HitsKey(prefix, k), BlockKey(prefix, k)} !! {HitsKey(prefix, k'), BlockKey(prefix, k')}
  {
    Tail(prefix + ":", k, k');
    Tail(prefix + ":block:", k, k');
    Tail(prefix + ":", k, "block:" + k');
    Tail(prefix + ":", "block:" + k, k');
    assert prefix + ":" + ("block:" + k') == BlockKey(prefix, k');
    assert prefix + ":" + ("block:" + k) == BlockKey(prefix, k);
    var s, s' := {HitsKey(prefix, k), BlockKey(prefix, k)}, {HitsKey(prefix, k'), BlockKey(prefix, k')};
    assert HitsKey(prefix, k) in s && BlockKey(prefix, k) in s;
    assert HitsKey(prefix, k') in s' && BlockKey(prefix, k') in s';
  }

  lemma Tail(head: string, a: string, b: string)
    ensures head + a == head + b <==> a == b
  {
    assert (head + a)[|head|..] == a;
    assert (head + b)[|head|..] == b;
  }

  lemma ServingTouchesItsKey(store: Store, prefix: string, r: Request, key: string)
    requires r.key != key ==> Apart(r.key, key)
    ensures View(ServeOne(store, prefix, r), prefix, key) ==
            if r.key == key then Step(View(store, prefix, key), r.policy, r.now).0 else View(store, prefix, key)
  {
    assert |HitsKey(prefix, r.key)| < |BlockKey(prefix, r.key)|;
    if r.key != key {
      KeysMeetIff(prefix, r.key, key);
      var s, s' := {HitsKey(prefix, r.key), BlockKey(prefix, r.key)}, {HitsKey(prefix, key), BlockKey(prefix, key)};
      assert HitsKey(prefix, key) in s' && BlockKey(prefix, key) in s';
      assert HitsKey(prefix, r.key) in s && BlockKey(prefix, r.key) in s;
    }
  }

  /** A key sees only its own requests. */
  lemma {:induction false} KeysAreIndependent(store: Store, prefix: string, reqs: seq<Request>, key: string,
                                              p: Policy, from: int, to: int)
    requires forall r | r in reqs :: if r.key == key then r.policy == p else Apart(r.key, key)
    ensures Served(store, prefix, reqs, key, from, to)
            == Admitted(View(store, prefix, key), p, TimesOf(reqs, key), from, to)
    decreases |reqs|
  {
    if reqs != [] {
      var r := reqs[0];
      assert r in reqs;
      ServingTouchesItsKey(store, prefix, r, key);
      KeysAreIndependent(ServeOne(store, prefix, r), prefix, reqs[1..], key, p, from, to);
      if r.key == key {
        assert TimesOf(reqs, key)[1..] == TimesOf(reqs[1..], key);
      } else {
        assert TimesOf(reqs, key) == TimesOf(reqs[1..], key);
      }
    }
  }

  lemma {:induction false} OrderOfOneKey(now: int, reqs: seq<Request>, key: string)
    requires InOrder(now, reqs)
    ensures Ordered(now, TimesOf(reqs, key))
    decreases |reqs|
  {
    if reqs != [] {
      OrderOfOneKey(reqs[0].now, reqs[1..], key);
      if reqs[0].key == key {
        assert TimesOf(reqs, key)[1..] == TimesOf(reqs[1..], key);
      } else {
        assert TimesOf(reqs, key) == TimesOf(reqs[1..], key);
      }
    }
  }

  /** The bucket is global: the bound holds over all pods and all other traffic together. */
  lemma GlobalBound(prefix: string, reqs: seq<Request>, key: string, p: Policy, start: int, from: int)
    requires Usable(p) && InOrder(start, reqs)
    requires forall r | r in reqs :: if r.key == key then r.policy == p else Apart(r.key, key)
    ensures Served(map[], prefix, reqs, key, from, from + p.ttl) <= if p.limit == 0 then 0 else 2 * p.limit - 1
  {
    KeysAreIndependent(map[], prefix, reqs, key, p, from, from + p.ttl);
    OrderOfOneKey(start, reqs, key);
    SlidingBound(p, start, TimesOf(reqs, key), from);
  }

  /**
   * When one identity spells another one's block key, its counter blocks the other's first request.
   * Identities are arbitrary strings here; which of them the guard's tracker can produce is not
   * part of this model.
   */
  lemma SpelledBlockKeyBlocks(prefix: string, key: string, p: Policy, now: int)
    requires Usable(p)
    ensures var store := ServeOne(map[], prefix, Request("block:" + key, now, p));
            Step(View(store, prefix, key), p, now).1.isBlocked
            && (p.limit >= 1 ==> !Step(View(map[], prefix, key), p, now).1.isBlocked)
  {
    assert HitsKey(prefix, "block:" + key) == BlockKey(prefix, key);
    assert |BlockKey(prefix, "block:" + key)| > |BlockKey(prefix, key)|;
  }
}

/** The sliding-window rate limiter: one transaction on a sorted set per call, and a later removal of the
    member that a refused call added. Times are whole milliseconds. */
module RateLimiter {
  import opened Wrappers

  datatype Entry = Entry(score: nat, id: nat)

  /** The limit, the window, and the whole seconds sent to EXPIRE. */
  datatype Config = Config(limit: int, windowMs: int, expirySeconds: int)

  datatype Result = Result(allowed: bool, limit: int, remaining: int, resetAtSeconds: int, retryAfterSeconds: int)

  /** How the transaction ends for the caller: with its replies, or with an error before or after it executed. */
  datatype Reply = Answered | Unsent | Lost

  const NS_PER_MS := 1_000_000
  const NS_PER_SECOND := 1_000_000_000

  /** Go's integer division truncates toward zero. */
  function Quotient(a: int, b: int): int
    requires b > 0
  {
    if a >= 0 then a / b else -((-a) / b)
  }

  /** EXPIRE takes whole seconds: a positive duration below one second is sent as one second, and any
      other is truncated. */
  function ExpirySeconds(windowNs: int): int {
    if 0 < windowNs < NS_PER_SECOND then 1 else Quotient(windowNs, NS_PER_SECOND)
  }

  /** The window is configured as a duration in nanoseconds. */
  function NewConfig(limit: int, windowNs: int): Config {
    Config(limit, Quotient(windowNs, NS_PER_MS), ExpirySeconds(windowNs))
  }

  function ExpiryMs(c: Config): int {
    c.expirySeconds * 1000
  }

  function Max(a: int, b: int): int {
    if a > b then a else b
  }

  // ---------------------------------------------------------------- sorted-set commands

  /** ZREMRANGEBYSCORE from 0 to a bound. */
  function Pruned(es: seq<Entry>, upTo: int): seq<Entry> {
    if es == [] then []
    else Pruned(es[..|es| - 1], upTo) + (if 0 <= es[|es| - 1].score <= upTo then [] else [es[|es| - 1]])
  }

  /** ZREM of one member. */
  function Removed(es: seq<Entry>, id: nat): seq<Entry> {
    if es == [] then []
    else Removed(es[..|es| - 1], id) + (if es[|es| - 1].id == id then [] else [es[|es| - 1]])
  }

  /** The lowest score. */
  function Lowest(es: seq<Entry>): nat
    requires es != []
  {
    var x := es[|es| - 1].score;
    if |es| == 1 then x else var y := Lowest(es[..|es| - 1]); if y < x then y else x
  }

  /** The transaction: what is stored afterwards, the cardinality read before the add, and the lowest
      score read at the end. A deadline that is not in the future deletes the key. */
  datatype Executed = Executed(entries: seq<Entry>, count: nat, oldest: Option<nat>)

  function Execute(c: Config, es: seq<Entry>, now: nat, id: nat): Executed {
    var pruned := Pruned(es, now - c.windowMs);
    var added := if c.expirySeconds <= 0 then [] else pruned + [Entry(now, id)];
    Executed(added, |pruned|, if added == [] then None else Some(Lowest(added)))
  }

  predicate Allows(c: Config, x: Executed) {
    x.count < c.limit
  }

  function Decide(c: Config, x: Executed, now: nat): Result {
    var allowed := Allows(c, x);
    var remaining := if allowed then c.limit - x.count else 0;
    Result(allowed, c.limit, remaining, ResetAt(c, x.oldest, now), RetryAfter(c, x.oldest, now))
  }

  function ResetAt(c: Config, oldest: Option<nat>, now: nat): int {
    Quotient((if oldest.Some? then oldest.value else now) + c.windowMs, 1000)
  }

  function RetryAfter(c: Config, oldest: Option<nat>, now: nat): int {
    if oldest.Some? then Max(0, Quotient(oldest.value + c.windowMs - now, 1000)) else Quotient(c.windowMs, 1000)
  }

  /** The places of the entries scored above a bound. */
  function Above(es: seq<Entry>, bound: int): set<nat> {
    set i: nat | i < |es| && es[i].score > bound
  }

  /** Pruning leaves exactly these entries. */
  lemma {:induction false} PrunedIsAbove(es: seq<Entry>, bound: int)
    ensures |Pruned(es, bound)| == |Above(es, bound)|
  {
    if es != [] {
      var n := |es| - 1;
      PrunedIsAbove(es[..n], bound);
      assert forall i :: 0 <= i < n ==> es[..n][i] == es[i];
      if es[n].score > bound {
        assert Above(es, bound) == Above(es[..n], bound) + {n};
      } else {
        assert Above(es, bound) == Above(es[..n], bound);
      }
    }
  }

  lemma {:induction false} PrunedKeeps(es: seq<Entry>, bound: int, e: Entry)
    ensures e in Pruned(es, bound) <==> e in es && e.score > bound
  {
    if es != [] {
      var n := |es| - 1;
      PrunedKeeps(es[..n], bound, e);
      assert es == es[..n] + [es[n]];
    }
  }

  /** No entry scored above the bound is earlier than v. */
  predicate NoneEarlier(es: seq<Entry>, bound: int, v: nat) {
    forall i :: 0 <= i < |es| && es[i].score > bound ==> v <= es[i].score
  }

  predicate Scores(es: seq<Entry>, bound: int, v: nat) {
    exists i :: 0 <= i < |es| && es[i].score == v > bound
  }

  /** The earliest of the scores above a bound and the time of the call. */
  predicate Earliest(es: seq<Entry>, bound: int, now: nat, v: nat) {
    (v == now || Scores(es, bound, v)) && v <= now && NoneEarlier(es, bound, v)
  }

  lemma FrontScores(es: seq<Entry>, bound: int, v: nat)
    requires es != [] && Scores(es[..|es| - 1], bound, v)
    ensures Scores(es, bound, v)
  {
    var front := es[..|es| - 1];
    var i :| 0 <= i < |front| && front[i].score == v > bound;
    assert es[i] == front[i];
  }

  lemma FrontNoneEarlier(es: seq<Entry>, bound: int, v: nat)
    requires es != [] && NoneEarlier(es[..|es| - 1], bound, v)
    requires es[|es| - 1].score > bound ==> v <= es[|es| - 1].score
    ensures NoneEarlier(es, bound, v)
  {
    var front := es[..|es| - 1];
    assert forall i :: 0 <= i < |front| ==> es[i] == front[i];
  }

  /** The earlier of the last entry and the least of those before it, for entries above the bound. */
  lemma {:induction false} LowestOfPruned(es: seq<Entry>, bound: int, now: nat)
    ensures Pruned(es, bound) == [] ==> NoneEarlier(es, bound, now)
    ensures Pruned(es, bound) != [] ==>
      Scores(es, bound, Lowest(Pruned(es, bound))) && NoneEarlier(es, bound, Lowest(Pruned(es, bound)))
  {
    if es != [] {
      var n := |es| - 1;
      var x, before := es[n], Pruned(es[..n], bound);
      LowestOfPruned(es[..n], bound, if x.score > bound && x.score < now then x.score else now);
      LowestOfPruned(es[..n], bound, x.score);
      if x.score <= bound {
        assert Pruned(es, bound) == before;
        FrontNoneEarlier(es, bound, if before == [] then now else Lowest(before));
        if before != [] {
          FrontScores(es, bound, Lowest(before));
        }
      } else {
        assert Pruned(es, bound) == before + [x] && (before + [x])[..|before|] == before;
        LowestOfAppended(es, bound, before);
      }
    }
  }

  lemma LowestOfAppended(es: seq<Entry>, bound: int, before: seq<Entry>)
    requires es != [] && es[|es| - 1].score > bound
    requires before == [] ==> NoneEarlier(es[..|es| - 1], bound, es[|es| - 1].score)
    requires before != [] ==>
      Scores(es[..|es| - 1], bound, Lowest(before)) && NoneEarlier(es[..|es| - 1], bound, Lowest(before))
    ensures var v := Lowest(before + [es[|es| - 1]]); Scores(es, bound, v) && NoneEarlier(es, bound, v)
  {
    var x := es[|es| - 1];
    var v := Lowest(before + [x]);
    assert (before + [x])[..|before|] == before;
    if before != [] && Lowest(before) < x.score {
      FrontScores(es, bound, v);
    }
    FrontNoneEarlier(es, bound, v);
  }

  /** The lowest score read back is the earliest one in the window, the call's own included. */
  lemma LowestIsEarliest(c: Config, es: seq<Entry>, now: nat, id: nat)
    requires c.expirySeconds > 0
    ensures var x := Execute(c, es, now, id); x.oldest.Some? && Earliest(es, now - c.windowMs, now, x.oldest.value)
  {
    var pruned := Pruned(es, now - c.windowMs);
    LowestOfPruned(es, now - c.windowMs, now);
    assert (pruned + [Entry(now, id)])[..|pruned|] == pruned;
  }

  /** The sorted set of one key, and its deadline. */
  datatype Contents = Contents(entries: seq<Entry>, expiresAt: int)

  /** One call that carries the time `now` and whose transaction, if it is sent, executes at store time `at`.
      `gone` says that the store has dropped the key because its deadline passed. An error from the transaction
      ends the call before anything is removed. */
  datatype Request = Request(now: nat, at: nat, id: nat, gone: bool, reply: Reply)

  function Found(s: Contents, call: Request): seq<Entry> {
    if call.gone then [] else s.entries
  }

  function AfterLimit(c: Config, s: Contents, call: Request): (Contents, Option<Result>) {
    if call.reply.Unsent? then (s, None)
    else
      var x := Execute(c, Found(s, call), call.now, call.id);
      var t := Contents(x.entries, call.at + ExpiryMs(c));
      if call.reply.Lost? then (t, None)
      else
        var answer := Decide(c, x, call.now);
        (if answer.allowed then t else t.(entries := Removed(x.entries, call.id)), Some(answer))
  }

  lemma {:induction false} RemovedMember(es: seq<Entry>, id: nat, e: Entry)
    ensures e in Removed(es, id) <==> e in es && e.id != id
  {
    if es != [] {
      var n := |es| - 1;
      assert es == es[..n] + [es[n]];
      RemovedMember(es[..n], id, e);
    }
  }

  lemma RemovedMembers(es: seq<Entry>, id: nat)
    ensures forall e :: e in Removed(es, id) <==> e in es && e.id != id
  {
    forall e ensures e in Removed(es, id) <==> e in es && e.id != id {
      RemovedMember(es, id, e);
    }
  }

  /** What a call is told: it is allowed exactly if fewer than `limit` of the entries found are in its window, and
      the times come from the earliest of them. */
  lemma AnswerIsExact(c: Config, s: Contents, call: Request, earliest: nat)
    requires Earliest(Found(s, call), call.now - c.windowMs, call.now, earliest)
    ensures var answer := AfterLimit(c, s, call).1;
      var n := |Above(Found(s, call), call.now - c.windowMs)|;
      var leaves := (if c.expirySeconds > 0 then earliest else call.now) + c.windowMs;
      && (answer.None? <==> !call.reply.Answered?)
      && (answer.Some? ==>
            && (answer.value.allowed <==> n < c.limit)
            && answer.value.limit == c.limit
            && answer.value.remaining == (if n < c.limit then c.limit - n else 0)
            && (leaves >= 0 ==> answer.value.resetAtSeconds == leaves / 1000)
            && (c.expirySeconds > 0 || c.windowMs >= 0 ==>
                  answer.value.retryAfterSeconds == if leaves >= call.now then (leaves - call.now) / 1000 else 0))
  {
    PrunedIsAbove(Found(s, call), call.now - c.windowMs);
    if c.expirySeconds > 0 {
      LowestIsEarliest(c, Found(s, call), call.now, call.id);
    }
  }

  lemma ExecutedMember(c: Config, es: seq<Entry>, now: nat, id: nat, e: Entry)
    requires c.expirySeconds > 0
    ensures e in Execute(c, es, now, id).entries
      <==> (e in es && e.score > now - c.windowMs) || e == Entry(now, id)
  {
    PrunedKeeps(es, now - c.windowMs, e);
  }

  /** What a call leaves behind: what it found in its window and its own entry, that only until it is refused. */
  lemma LeavesTheWindow(c: Config, s: Contents, call: Request, e: Entry)
    requires c.expirySeconds > 0 && (e in Found(s, call) ==> e.id != call.id)
    ensures var (t, answer) := AfterLimit(c, s, call);
      if call.reply.Unsent? then t == s
      else
        && t.expiresAt == call.at + 1000 * c.expirySeconds
        && (e in t.entries <==>
              || (e in Found(s, call) && e.score > call.now - c.windowMs)
              || (e == Entry(call.now, call.id) && !(answer.Some? && !answer.value.allowed)))
  {
    ExecutedMember(c, Found(s, call), call.now, call.id, e);
    RemovedMember(Execute(c, Found(s, call), call.now, call.id).entries, call.id, e);
  }

  class SortedSetStore {
    var entries: seq<Entry>
    var expiresAt: int

    constructor ()
      ensures entries == [] && expiresAt == 0
    {
      entries, expiresAt := [], 0;
    }

    function View(): Contents
      reads this
    {
      Contents(entries, expiresAt)
    }

    method ZRemRangeByScore(upTo: int)
      modifies this`entries
      ensures entries == Pruned(old(entries), upTo)
    {
      ghost var before := entries;
      var kept: seq<Entry> := [];
      for i := 0 to |entries|
        invariant entries == before
        invariant kept == Pruned(before[..i], upTo)
      {
        assert before[..i + 1][..i] == before[..i];
        if !(0 <= entries[i].score <= upTo) {
          kept := kept + [entries[i]];
        }
      }
      assert before[..|before|] == before;
      entries := kept;
    }

    method ZAdd(e: Entry)
      modifies this`entries
      ensures entries == old(entries) + [e]
    {
      entries := entries + [e];
    }

    method Expire(now: nat, seconds: int)
      modifies this
      ensures expiresAt == now + seconds * 1000
      ensures entries == if seconds <= 0 then [] else old(entries)
    {
      expiresAt := now + seconds * 1000;
      if seconds <= 0 {
        entries := [];
      }
    }

    method ZRem(id: nat)
      modifies this`entries
      ensures entries == Removed(old(entries), id)
    {
      ghost var before := entries;
      var kept: seq<Entry> := [];
      for i := 0 to |entries|
        invariant entries == before
        invariant kept == Removed(before[..i], id)
      {
        assert before[..i + 1][..i] == before[..i];
        if entries[i].id != id {
          kept := kept + [entries[i]];
        }
      }
      assert before[..|before|] == before;
      entries := kept;
    }
  }

  class Limiter {
    const config: Config

    constructor (limit: int, windowNs: int)
      ensures config == NewConfig(limit, windowNs)
    {
      config := NewConfig(limit, windowNs);
    }

    method Horizon(lowest: Option<nat>, now: nat) returns (resetAt: int, retryAfter: int)
      ensures resetAt == ResetAt(config, lowest, now)
      ensures retryAfter == RetryAfter(config, lowest, now)
    {
      if lowest.Some? {
        var resetAtMs := lowest.value + config.windowMs;
        resetAt := Quotient(resetAtMs, 1000);
        retryAfter := Quotient(resetAtMs - now, 1000);
        if retryAfter < 0 {
          retryAfter := 0;
        }
      } else {
        resetAt := Quotient(now + config.windowMs, 1000);
        retryAfter := Quotient(config.windowMs, 1000);
      }
    }

    /** The transaction, as the store runs it in one piece at its own time `at`. */
    method Exec(store: SortedSetStore, now: nat, at: nat, id: nat) returns (count: nat, lowest: Option<nat>)
      modifies store
      ensures var x := Execute(config, old(store.entries), now, id);
        store.entries == x.entries && count == x.count && lowest == x.oldest
      ensures store.expiresAt == at + ExpiryMs(config)
    {
      store.ZRemRangeByScore(now - config.windowMs);
      count := |store.entries|;
      store.ZAdd(Entry(now, id));
      store.Expire(at, config.expirySeconds);
      lowest := if store.entries == [] then None else Some(Lowest(store.entries));
    }

    /** What the caller is told, from the two replies of the transaction. */
    method Answer(count: nat, lowest: Option<nat>, now: nat, ghost x: Executed) returns (r: Result)
      requires count == x.count && lowest == x.oldest
      ensures r == Decide(config, x, now)
    {
      var allowed, remaining := true, config.limit - count;
      if count >= config.limit {
        allowed, remaining := false, 0;
      }
      var resetAt, retryAfter := Horizon(lowest, now);
      r := Result(allowed, config.limit, remaining, resetAt, retryAfter);
    }

    /** The transaction of a call. Redis has dropped a key whose deadline passed. */
    method Transact(store: SortedSetStore, call: Request) returns (count: nat, lowest: Option<nat>)
      modifies store
      ensures var found := Found(old(store.View()), call);
        var x := Execute(config, found, call.now, call.id);
        && store.View() == Contents(x.entries, call.at + ExpiryMs(config)) && count == x.count && lowest == x.oldest
        && count == |Above(found, call.now - config.windowMs)|
    {
      if call.gone {
        store.entries := [];
      }
      PrunedIsAbove(store.entries, call.now - config.windowMs);
      count, lowest := Exec(store, call.now, call.at, call.id);
    }

    /** One call. An error from the transaction ends it before anything is removed. */
    method Limit(store: SortedSetStore, call: Request) returns (r: Option<Result>)
      requires call.gone ==> call.at >= store.expiresAt
      modifies store
      ensures (store.View(), r) == AfterLimit(config, old(store.View()), call)
      ensures r.Some? ==>
        (r.value.allowed <==> |Above(Found(old(store.View()), call), call.now - config.windowMs)| < config.limit)
    {
      if call.reply.Unsent? {
        return None;
      }
      ghost var x := Execute(config, Found(store.View(), call), call.now, call.id);
      var count, lowest := Transact(store, call);
      if call.reply.Lost? {
        return None;
      }
      if count >= config.limit {
        store.ZRem(call.id);
      }
      var answer := Answer(count, lowest, call.now, x);
      r := Some(answer);
    }
  }
}

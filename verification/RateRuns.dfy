/** Runs of the rate limiter on one key, with refused members removed at any later point, and the naive
    check over the full history that it must agree with. */
module RateRuns {
  import opened Wrappers
  import opened RateLimiter

  /** `last` is the latest time that a call carried, `lastAt` the store's own time when it executed, and `lag` how
      far the store's time may be ahead. `admitted` is the full history of admitted calls; `refused` are the
      calls whose member must go. */
  datatype State = State(
    entries: seq<Entry>, expiresAt: int, last: nat, lastAt: nat, lag: nat, admitted: seq<Entry>, refused: set<nat>)

  /** A call that carries the time `now` executes its transaction at store time `at`; `answered` is false when the
      reply is lost and the caller gets an error. The removal of a refused member comes later, or never. */
  datatype Action = Call(now: nat, at: nat, id: nat, gone: bool, answered: bool) | Remove(id: nat)

  function Initial(lag: nat): State {
    State([], 0, 0, 0, lag, [], {})
  }

  predicate Fresh(s: State, id: nat) {
    && id !in s.refused
    && (forall e :: e in s.entries ==> e.id != id)
    && (forall e :: e in s.admitted ==> e.id != id)
  }

  /** Calls execute in the order of the times they carry, members are unique, and a key can be gone from its
      deadline on, by the store's time. */
  predicate Enabled(s: State, a: Action) {
    match a
    case Call(now, at, id, gone, _) =>
      && now >= s.last && at >= s.lastAt && now <= at <= now + s.lag
      && Fresh(s, id) && (gone ==> at >= s.expiresAt)
    case Remove(id) => id in s.refused
  }

  function Seen(s: State, a: Action): seq<Entry>
    requires a.Call?
  {
    if a.gone then [] else s.entries
  }

  predicate Admits(c: Config, s: State, a: Action)
    requires a.Call?
  {
    a.answered && Allows(c, Execute(c, Seen(s, a), a.now, a.id))
  }

  function Step(c: Config, s: State, a: Action): State
    requires Enabled(s, a)
  {
    match a
    case Call(now, at, id, _, _) =>
      var t := s.(entries := Execute(c, Seen(s, a), now, id).entries, expiresAt := at + ExpiryMs(c),
                  last := now, lastAt := at);
      if Admits(c, s, a) then t.(admitted := s.admitted + [Entry(now, id)]) else t.(refused := s.refused + {id})
    case Remove(id) => s.(entries := Removed(s.entries, id))
  }

  predicate CanRun(c: Config, s: State, acts: seq<Action>)
    decreases |acts|
  {
    acts == [] || (Enabled(s, acts[0]) && CanRun(c, Step(c, s, acts[0]), acts[1..]))
  }

  function Run(c: Config, s: State, acts: seq<Action>): State
    requires CanRun(c, s, acts)
    decreases |acts|
  {
    if acts == [] then s else Run(c, Step(c, s, acts[0]), acts[1..])
  }

  lemma RunThen(c: Config, s: State, a: Action, rest: seq<Action>)
    requires Enabled(s, a) && CanRun(c, Step(c, s, a), rest)
    ensures CanRun(c, s, [a] + rest) && Run(c, s, [a] + rest) == Run(c, Step(c, s, a), rest)
  {
    assert ([a] + rest)[1..] == rest;
  }

  // ---------------------------------------------------------------- the limiter's own call is a run of steps

  /** The steps of one call to the limiter: its transaction, if it is sent, and the removal if it is refused. */
  function CallActs(c: Config, s: State, call: Request): seq<Action> {
    var a := Call(call.now, call.at, call.id, call.gone, call.reply.Answered?);
    if call.reply.Unsent? then []
    else if call.reply.Answered? && !Admits(c, s, a) then [a] + ([Remove(call.id)] + [])
    else [a] + []
  }

  /** A call is a run of these steps, leaves what the limiter's own method leaves in the store, and is told that it
      is allowed exactly if its step is admitted. */
  lemma LimitIsSteps(c: Config, s: State, call: Request)
    requires Enabled(s, Call(call.now, call.at, call.id, call.gone, call.reply.Answered?))
    ensures CanRun(c, s, CallActs(c, s, call))
    ensures var (after, answer) := AfterLimit(c, Contents(s.entries, s.expiresAt), call);
      var t := Run(c, s, CallActs(c, s, call));
      && Contents(t.entries, t.expiresAt) == after
      && (answer.Some? <==> call.reply.Answered?)
      && (answer.Some? ==>
            (answer.value.allowed <==> Entry(call.now, call.id) in t.admitted && call.id !in t.refused))
      && (!call.reply.Unsent? && !(answer.Some? && answer.value.allowed) ==> t.admitted == s.admitted)
  {
    var a := Call(call.now, call.at, call.id, call.gone, call.reply.Answered?);
    if !call.reply.Unsent? {
      var t := Step(c, s, a);
      assert Fresh(s, call.id);
      if Admits(c, s, a) {
        assert t.admitted[|s.admitted|] == Entry(call.now, call.id);
        assert Entry(call.now, call.id) in t.admitted;
      }
      if call.reply.Answered? && !Admits(c, s, a) {
        RunThen(c, t, Remove(call.id), []);
        RunThen(c, s, a, [Remove(call.id)] + []);
      } else {
        RunThen(c, s, a, []);
      }
    }
  }

  // ---------------------------------------------------------------- counting

  /** How many entries lie in (lo, hi]. */
  function CountIn(es: seq<Entry>, lo: int, hi: int): nat {
    if es == [] then 0
    else CountIn(es[..|es| - 1], lo, hi) + (if lo < es[|es| - 1].score <= hi then 1 else 0)
  }

  /** The entries that are not to be removed. */
  function Kept(es: seq<Entry>, refused: set<nat>): seq<Entry> {
    if es == [] then []
    else Kept(es[..|es| - 1], refused) + (if es[|es| - 1].id in refused then [] else [es[|es| - 1]])
  }

  lemma {:induction false} CountConcat(a: seq<Entry>, b: seq<Entry>, lo: int, hi: int)
    ensures CountIn(a + b, lo, hi) == CountIn(a, lo, hi) + CountIn(b, lo, hi)
  {
    if b == [] {
      assert a + b == a;
    } else {
      assert (a + b)[..|a + b| - 1] == a + b[..|b| - 1];
      CountConcat(a, b[..|b| - 1], lo, hi);
    }
  }

  lemma {:induction false} CountNone(es: seq<Entry>, lo: int, hi: int)
    requires forall e :: e in es ==> e.score <= lo
    ensures CountIn(es, lo, hi) == 0
  {
    if es != [] {
      CountNone(es[..|es| - 1], lo, hi);
    }
  }

  lemma {:induction false} CountMonotone(es: seq<Entry>, lo: int, lo': int, hi: int, hi': int)
    requires lo' <= lo && forall e :: e in es ==> e.score <= hi'
    ensures CountIn(es, lo, hi) <= CountIn(es, lo', hi')
  {
    if es != [] {
      assert es[|es| - 1] in es;
      CountMonotone(es[..|es| - 1], lo, lo', hi, hi');
    }
  }

  /** Pruning leaves exactly the entries inside the window. */
  lemma {:induction false} PrunedSpec(es: seq<Entry>, lo: int, hi: int)
    requires forall e :: e in es ==> e.score <= hi
    ensures |Pruned(es, lo)| == CountIn(es, lo, hi)
    ensures forall e :: e in Pruned(es, lo) <==> e in es && e.score > lo
  {
    if es != [] {
      var n := |es| - 1;
      assert es == es[..n] + [es[n]];
      PrunedSpec(es[..n], lo, hi);
    }
  }

  lemma {:induction false} KeptPruned(es: seq<Entry>, lo: int, refused: set<nat>)
    ensures Kept(Pruned(es, lo), refused) == Pruned(Kept(es, refused), lo)
  {
    if es != [] {
      var n := |es| - 1;
      KeptPruned(es[..n], lo, refused);
      KeptPrunedSnoc(es[..n], es[n], lo, refused);
      assert es == es[..n] + [es[n]];
    }
  }

  lemma KeptPrunedSnoc(es: seq<Entry>, x: Entry, lo: int, refused: set<nat>)
    requires Kept(Pruned(es, lo), refused) == Pruned(Kept(es, refused), lo)
    ensures Kept(Pruned(es + [x], lo), refused) == Pruned(Kept(es + [x], refused), lo)
  {
    KeptSnoc(es, x, refused);
    PrunedSnoc(es, x, lo);
    if x.score <= lo {
      assert Pruned(es, lo) + [] == Pruned(es, lo);
    } else {
      KeptSnoc(Pruned(es, lo), x, refused);
    }
    if x.id in refused {
      assert Kept(es, refused) + [] == Kept(es, refused);
    } else {
      PrunedSnoc(Kept(es, refused), x, lo);
    }
  }

  lemma KeptSnoc(es: seq<Entry>, x: Entry, refused: set<nat>)
    ensures Kept(es + [x], refused) == Kept(es, refused) + (if x.id in refused then [] else [x])
  {
    assert (es + [x])[..|es|] == es;
  }

  lemma PrunedSnoc(es: seq<Entry>, x: Entry, lo: int)
    ensures Pruned(es + [x], lo) == Pruned(es, lo) + (if 0 <= x.score <= lo then [] else [x])
  {
    assert (es + [x])[..|es|] == es;
  }

  lemma {:induction false} KeptGrows(es: seq<Entry>, refused: set<nat>, id: nat)
    requires forall e :: e in es ==> e.id != id
    ensures Kept(es, refused + {id}) == Kept(es, refused)
  {
    if es != [] {
      var n := |es| - 1;
      assert es[n] in es;
      KeptGrows(es[..n], refused, id);
    }
  }

  lemma {:induction false} KeptRemoved(es: seq<Entry>, refused: set<nat>, id: nat)
    requires id in refused
    ensures Kept(Removed(es, id), refused) == Kept(es, refused)
  {
    if es != [] {
      var n := |es| - 1;
      KeptRemoved(es[..n], refused, id);
      KeptSnoc(Removed(es[..n], id), es[n], refused);
      assert Removed(es[..n], id) + [] == Removed(es[..n], id);
    }
  }

  lemma {:induction false} KeptCount(es: seq<Entry>, refused: set<nat>, lo: int, hi: int)
    ensures CountIn(Kept(es, refused), lo, hi) <= CountIn(es, lo, hi)
  {
    if es != [] {
      var n := |es| - 1;
      KeptCount(es[..n], refused, lo, hi);
      var tail := if es[n].id in refused then [] else [es[n]];
      CountConcat(Kept(es[..n], refused), tail, lo, hi);
      CountOne(es[n], lo, hi);
    }
  }

  lemma CountOne(x: Entry, lo: int, hi: int)
    ensures CountIn([x], lo, hi) == if lo < x.score <= hi then 1 else 0
  {
    assert [x][..0] == [];
  }

  // ---------------------------------------------------------------- invariant

  predicate Ascending(es: seq<Entry>) {
    forall i, j :: 0 <= i < j < |es| ==> es[i].score <= es[j].score
  }

  /** `tail` ends the list `all`, and what comes before it is no later than the cutoff. */
  predicate EndsWith(all: seq<Entry>, tail: seq<Entry>, cutoff: int) {
    && |tail| <= |all|
    && all[|all| - |tail|..] == tail
    && forall i :: 0 <= i < |all| - |tail| ==> all[i].score <= cutoff
  }

  lemma {:induction false} PruneTail(all: seq<Entry>, tail: seq<Entry>, cutoff: int, lo: int)
    requires EndsWith(all, tail, cutoff) && Ascending(all) && cutoff <= lo
    ensures EndsWith(all, Pruned(tail, lo), lo)
    decreases |tail|
  {
    if tail != [] {
      if tail[0].score <= lo {
        PrunedFirst(tail, lo);
        DropOne(all, tail, cutoff, lo);
        PruneTail(all, tail[1..], lo, lo);
      } else {
        TailIsLater(all, tail, cutoff, lo);
        PrunedNothing(tail, lo);
      }
    }
  }

  lemma DropOne(all: seq<Entry>, tail: seq<Entry>, cutoff: int, lo: int)
    requires EndsWith(all, tail, cutoff) && cutoff <= lo && tail != [] && tail[0].score <= lo
    ensures EndsWith(all, tail[1..], lo)
  {
    var k := |all| - |tail|;
    assert tail[0] == all[k] && all[k + 1..] == tail[1..];
  }

  lemma TailIsLater(all: seq<Entry>, tail: seq<Entry>, cutoff: int, lo: int)
    requires EndsWith(all, tail, cutoff) && Ascending(all) && tail != [] && tail[0].score > lo
    ensures forall i :: 0 <= i < |tail| ==> tail[i].score > lo
  {
    var k := |all| - |tail|;
    forall i | 0 <= i < |tail| ensures tail[i].score > lo {
      assert tail[i] == all[k + i] && tail[0] == all[k];
    }
  }

  lemma {:induction false} PrunedFirst(es: seq<Entry>, lo: int)
    requires es != [] && es[0].score <= lo
    ensures Pruned(es, lo) == Pruned(es[1..], lo)
  {
    if |es| == 1 {
      assert es[..0] == [] && es[1..] == [];
    } else {
      var n := |es| - 1;
      assert es[1..][..n - 1] == es[..n][1..];
      PrunedFirst(es[..n], lo);
    }
  }

  lemma {:induction false} PrunedNothing(es: seq<Entry>, lo: int)
    requires forall i :: 0 <= i < |es| ==> es[i].score > lo
    ensures Pruned(es, lo) == es
  {
    if es != [] {
      PrunedNothing(es[..|es| - 1], lo);
    }
  }

  /** The stored members of admitted calls are the most recent admitted calls; the others are out of
      every window that can still be asked about. */
  predicate Suffix(c: Config, s: State) {
    EndsWith(s.admitted, Kept(s.entries, s.refused), s.last - c.windowMs)
  }

  predicate Times(s: State) {
    && (forall e :: e in s.entries ==> e.score <= s.last)
    && (forall e :: e in s.admitted ==> e.score <= s.last && e.id !in s.refused)
    && Ascending(s.admitted)
  }

  /** Each admitted call found its window with room. */
  predicate WindowsOk(c: Config, history: seq<Entry>) {
    history == []
    || (var n := |history| - 1;
        WindowsOk(c, history[..n]) && InWindow(history, c.windowMs, history[n].score) <= c.limit)
  }

  /** How many entries lie in the window that ends at t. */
  function InWindow(history: seq<Entry>, windowMs: int, t: int): nat {
    CountIn(history, t - windowMs, t)
  }

  predicate Deadline(c: Config, s: State) {
    s.last <= s.lastAt && (s.entries == [] || s.expiresAt == s.lastAt + ExpiryMs(c))
  }

  /** Without an expiry in the future there is no window either. */
  predicate Sensible(c: Config) {
    c.expirySeconds <= 0 ==> c.windowMs <= 0
  }

  predicate Recent(c: Config, s: State) {
    Sensible(c) && Suffix(c, s) && Times(s) && Deadline(c, s)
  }

  predicate Inv(c: Config, s: State) {
    Recent(c, s) && WindowsOk(c, s.admitted)
  }

  /** No key is lost before its window is over. */
  predicate KeepsWindow(c: Config, s: State, a: Action) {
    a.Call? && a.gone ==> Lasts(c, s.lag)
  }

  /** Stored members outlast the window, however late the store executes; or the window holds nothing. */
  predicate Lasts(c: Config, lag: nat) {
    c.windowMs <= 0 || c.windowMs + lag <= ExpiryMs(c)
  }

  lemma TailCount(all: seq<Entry>, tail: seq<Entry>, lo: int, hi: int)
    requires EndsWith(all, tail, lo)
    ensures CountIn(tail, lo, hi) == CountIn(all, lo, hi)
  {
    var k := |all| - |tail|;
    assert all == all[..k] + tail;
    CountConcat(all[..k], tail, lo, hi);
    CountNone(all[..k], lo, hi);
  }

  /** Losing the key at its deadline forgets nothing, if the deadline is no shorter than the window. */
  lemma SeenSuffix(c: Config, s: State, a: Action)
    requires Recent(c, s) && Enabled(s, a) && a.Call? && KeepsWindow(c, s, a)
    ensures EndsWith(s.admitted, Kept(Seen(s, a), s.refused), a.now - c.windowMs)
    ensures forall e :: e in Seen(s, a) ==> e.score <= a.now
  {
    if a.gone {
      forall i | 0 <= i < |s.admitted| ensures s.admitted[i].score <= a.now - c.windowMs {
        assert s.admitted[i] in s.admitted;
        assert s.entries == [] ==> Kept(s.entries, s.refused) == [];
      }
    }
  }

  /** The naive limiter: an admitted call must find fewer than `limit` admitted calls in its window. */
  predicate NaiveAdmits(c: Config, history: seq<Entry>, now: nat) {
    InWindow(history, c.windowMs, now) < c.limit
  }

  lemma CountSeen(all: seq<Entry>, es: seq<Entry>, refused: set<nat>, lo: int, hi: int)
    requires EndsWith(all, Kept(es, refused), lo) && forall e :: e in es ==> e.score <= hi
    ensures CountIn(all, lo, hi) <= |Pruned(es, lo)|
  {
    PrunedSpec(es, lo, hi);
    KeptCount(es, refused, lo, hi);
    TailCount(all, Kept(es, refused), lo, hi);
  }

  lemma {:induction false} NoneRefused(es: seq<Entry>, refused: set<nat>)
    requires forall e :: e in es ==> e.id !in refused
    ensures Kept(es, refused) == es
  {
    if es != [] {
      var n := |es| - 1;
      assert es[n] in es && es == es[..n] + [es[n]];
      NoneRefused(es[..n], refused);
      KeptSnoc(es[..n], es[n], refused);
    }
  }

  /** Pending members of refused calls can only make the limiter stricter. */
  lemma AdmittedHasRoom(c: Config, s: State, a: Action)
    requires Recent(c, s) && Enabled(s, a) && a.Call? && KeepsWindow(c, s, a) && Admits(c, s, a)
    ensures NaiveAdmits(c, s.admitted, a.now)
  {
    SeenSuffix(c, s, a);
    CountSeen(s.admitted, Seen(s, a), s.refused, a.now - c.windowMs, a.now);
  }

  lemma TailAfterCall(all: seq<Entry>, es: seq<Entry>, refused: set<nat>, lo: int, e: Entry)
    requires EndsWith(all, Kept(es, refused), lo) && Ascending(all) && e.id !in refused
    requires forall x :: x in es ==> x.id != e.id
    ensures EndsWith(all + [e], Kept(Pruned(es, lo) + [e], refused), lo)
    ensures EndsWith(all, Kept(Pruned(es, lo) + [e], refused + {e.id}), lo)
  {
    var pruned := Pruned(es, lo);
    PruneTail(all, Kept(es, refused), lo, lo);
    KeptPruned(es, lo, refused);
    PrunedMembers(es, lo);
    KeptAfterCall(pruned, e, refused);
    EndsWithSnoc(all, Kept(pruned, refused), e, lo);
  }

  lemma KeptAfterCall(pruned: seq<Entry>, e: Entry, refused: set<nat>)
    requires e.id !in refused && forall x :: x in pruned ==> x.id != e.id
    ensures Kept(pruned + [e], refused) == Kept(pruned, refused) + [e]
    ensures Kept(pruned + [e], refused + {e.id}) == Kept(pruned, refused)
  {
    KeptGrows(pruned, refused, e.id);
    KeptSnoc(pruned, e, refused);
    KeptSnoc(pruned, e, refused + {e.id});
    assert Kept(pruned, refused) + [] == Kept(pruned, refused);
  }

  lemma EndsWithSnoc(all: seq<Entry>, tail: seq<Entry>, e: Entry, lo: int)
    requires EndsWith(all, tail, lo)
    ensures EndsWith(all + [e], tail + [e], lo)
  {
    var k := |all| - |tail|;
    assert (all + [e])[k..] == all[k..] + [e];
  }

  lemma {:induction false} PrunedMembers(es: seq<Entry>, lo: int)
    ensures forall e :: e in Pruned(es, lo) ==> e in es
  {
    if es != [] {
      PrunedMembers(es[..|es| - 1], lo);
    }
  }

  lemma SuffixAfter(c: Config, all: seq<Entry>, es: seq<Entry>, refused: set<nat>, e: Entry, t: State)
    requires EndsWith(all, Kept(es, refused), e.score - c.windowMs) && Ascending(all) && e.id !in refused
    requires forall x :: x in es ==> x.id != e.id
    requires t.entries == Pruned(es, e.score - c.windowMs) + [e] && t.last == e.score
    requires (t.admitted == all + [e] && t.refused == refused) || (t.admitted == all && t.refused == refused + {e.id})
    ensures Suffix(c, t)
  {
    TailAfterCall(all, es, refused, e.score - c.windowMs, e);
  }

  lemma CallKeepsSuffix(c: Config, s: State, a: Action)
    requires Recent(c, s) && Enabled(s, a) && a.Call? && KeepsWindow(c, s, a)
    ensures Suffix(c, Step(c, s, a))
  {
    if c.expirySeconds <= 0 {
      assert forall i :: 0 <= i < |s.admitted| ==> s.admitted[i] in s.admitted;
    } else {
      SeenSuffix(c, s, a);
      assert forall e :: e in Seen(s, a) ==> e.id != a.id;
      SuffixAfter(c, s.admitted, Seen(s, a), s.refused, Entry(a.now, a.id), Step(c, s, a));
    }
  }

  lemma AppendWindow(c: Config, history: seq<Entry>, e: Entry)
    requires WindowsOk(c, history) && NaiveAdmits(c, history, e.score)
    ensures WindowsOk(c, history + [e])
  {
    assert (history + [e])[..|history|] == history;
    CountConcat(history, [e], e.score - c.windowMs, e.score);
    CountOne(e, e.score - c.windowMs, e.score);
  }

  lemma CallKeepsWindows(c: Config, s: State, a: Action)
    requires Inv(c, s) && Enabled(s, a) && a.Call? && KeepsWindow(c, s, a)
    ensures WindowsOk(c, Step(c, s, a).admitted)
  {
    if Admits(c, s, a) {
      AdmittedHasRoom(c, s, a);
      AppendWindow(c, s.admitted, Entry(a.now, a.id));
    }
  }

  lemma AscendingSnoc(all: seq<Entry>, e: Entry)
    requires Ascending(all) && forall x :: x in all ==> x.score <= e.score
    ensures Ascending(all + [e])
  {
    assert forall i :: 0 <= i < |all| ==> all[i] in all;
  }

  lemma StoredByNow(c: Config, es: seq<Entry>, now: nat, id: nat)
    requires forall e :: e in es ==> e.score <= now
    ensures forall e :: e in Execute(c, es, now, id).entries ==> e.score <= now
  {
    PrunedMembers(es, now - c.windowMs);
  }

  lemma CallKeepsTimes(c: Config, s: State, a: Action)
    requires Times(s) && Enabled(s, a) && a.Call?
    ensures Times(Step(c, s, a)) && Deadline(c, Step(c, s, a))
  {
    StoredByNow(c, Seen(s, a), a.now, a.id);
    AscendingSnoc(s.admitted, Entry(a.now, a.id));
  }

  /** Every step keeps the invariant, as long as no key is lost before its window is over. */
  lemma StepInv(c: Config, s: State, a: Action)
    requires Inv(c, s) && Enabled(s, a) && KeepsWindow(c, s, a)
    ensures Inv(c, Step(c, s, a))
  {
    if a.Call? {
      CallKeepsSuffix(c, s, a);
      CallKeepsWindows(c, s, a);
      CallKeepsTimes(c, s, a);
    } else {
      KeptRemoved(s.entries, s.refused, a.id);
      RemovedMembers(s.entries, a.id);
    }
  }

  lemma {:induction false} RunInv(c: Config, s: State, acts: seq<Action>)
    requires Inv(c, s) && CanRun(c, s, acts) && Lasts(c, s.lag)
    ensures Inv(c, Run(c, s, acts))
    decreases |acts|
  {
    if acts != [] {
      StepInv(c, s, acts[0]);
      RunInv(c, Step(c, s, acts[0]), acts[1..]);
    }
  }

  // ---------------------------------------------------------------- safety under interleaving

  /** Every window of the configured length holds at most `limit` admitted calls. */
  ghost predicate NeverOverAdmits(c: Config, history: seq<Entry>) {
    forall t: int :: InWindow(history, c.windowMs, t) <= Max(c.limit, 0)
  }

  lemma {:induction false} AnyWindow(c: Config, history: seq<Entry>, t: int)
    requires Ascending(history) && WindowsOk(c, history)
    ensures InWindow(history, c.windowMs, t) <= Max(c.limit, 0)
  {
    if history != [] {
      var n := |history| - 1;
      var x := history[n];
      if x.score <= t {
        assert forall i :: 0 <= i <= n ==> history[i].score <= x.score;
        CountMonotone(history, t - c.windowMs, x.score - c.windowMs, t, x.score);
      } else {
        AnyWindow(c, history[..n], t);
      }
    }
  }

  lemma SafeHistory(c: Config, s: State)
    requires Inv(c, s)
    ensures NeverOverAdmits(c, s.admitted)
  {
    forall t: int ensures InWindow(s.admitted, c.windowMs, t) <= Max(c.limit, 0) {
      AnyWindow(c, s.admitted, t);
    }
  }

  // ---------------------------------------------------------------- serial runs

  /** Each call is answered, and a refused one removes its member before the next call executes. */
  predicate Serial(c: Config, s: State, acts: seq<Action>)
    decreases |acts|
  {
    acts == []
    || (&& acts[0].Call? && acts[0].answered && Enabled(s, acts[0])
        && if Admits(c, s, acts[0]) then Serial(c, Step(c, s, acts[0]), acts[1..])
           else |acts| >= 2 && acts[1] == Remove(acts[0].id) && Serial(c, Refuse(c, s, acts[0]), acts[2..]))
  }

  function Refuse(c: Config, s: State, a: Action): State
    requires a.Call? && Enabled(s, a) && !Admits(c, s, a)
  {
    Step(c, Step(c, s, a), Remove(a.id))
  }

  predicate Clean(s: State) {
    forall e :: e in s.entries ==> e.id !in s.refused
  }

  lemma StepStaysClean(c: Config, s: State, a: Action)
    requires Clean(s) && Enabled(s, a) && a.Call?
    ensures Admits(c, s, a) ==> Clean(Step(c, s, a))
    ensures !Admits(c, s, a) ==> Clean(Refuse(c, s, a))
  {
    PrunedMembers(Seen(s, a), a.now - c.windowMs);
    if !Admits(c, s, a) {
      RemovedMembers(Step(c, s, a).entries, a.id);
    }
  }

  lemma {:induction false} SerialInv(c: Config, s: State, acts: seq<Action>)
    requires Serial(c, s, acts) && Inv(c, s) && Clean(s) && Lasts(c, s.lag)
    ensures CanRun(c, s, acts) && Inv(c, Run(c, s, acts)) && Clean(Run(c, s, acts))
    decreases |acts|
  {
    if acts != [] {
      StepInv(c, s, acts[0]);
      StepStaysClean(c, s, acts[0]);
      if Admits(c, s, acts[0]) {
        SerialInv(c, Step(c, s, acts[0]), acts[1..]);
      } else {
        var t := Step(c, s, acts[0]);
        assert acts[1..][0] == acts[1] && acts[1..][1..] == acts[2..];
        StepInv(c, t, acts[1]);
        SerialInv(c, Refuse(c, s, acts[0]), acts[2..]);
      }
    }
  }

  /** What is seen is the latest of all, none of it after `hi`. */
  predicate SeesLatest(all: seq<Entry>, es: seq<Entry>, lo: int, hi: int) {
    EndsWith(all, es, lo) && forall e :: e in es ==> e.score <= hi
  }

  /** With nothing pending, what a call sees is the most recent admitted calls. */
  lemma SeenIsAdmitted(c: Config, s: State, a: Action)
    requires Recent(c, s) && Clean(s) && Enabled(s, a) && a.Call? && KeepsWindow(c, s, a)
    ensures SeesLatest(s.admitted, Seen(s, a), a.now - c.windowMs, a.now)
  {
    SeenSuffix(c, s, a);
    NoneRefused(Seen(s, a), s.refused);
  }

  lemma SeenCount(all: seq<Entry>, es: seq<Entry>, lo: int, hi: int)
    requires SeesLatest(all, es, lo, hi)
    ensures |Pruned(es, lo)| == CountIn(all, lo, hi)
  {
    PrunedSpec(es, lo, hi);
    TailCount(all, es, lo, hi);
  }

  lemma CountDecides(c: Config, all: seq<Entry>, es: seq<Entry>, now: nat, id: nat)
    requires SeesLatest(all, es, now - c.windowMs, now)
    ensures Allows(c, Execute(c, es, now, id)) <==> NaiveAdmits(c, all, now)
  {
    SeenCount(all, es, now - c.windowMs, now);
  }

  /** With no pending removals the limiter decides as the naive check over the full history does. */
  lemma DecidesLikeNaive(c: Config, s: State, a: Action)
    requires Recent(c, s) && Clean(s) && Enabled(s, a) && a.Call? && a.answered && KeepsWindow(c, s, a)
    ensures Admits(c, s, a) <==> NaiveAdmits(c, s.admitted, a.now)
  {
    SeenIsAdmitted(c, s, a);
    CountDecides(c, s.admitted, Seen(s, a), a.now, a.id);
  }

  ghost predicate Refines(c: Config, lag: nat) {
    forall acts, a: Action :: Serial(c, Initial(lag), acts) && CanRun(c, Initial(lag), acts) && a.Call? && a.answered
      && Enabled(Run(c, Initial(lag), acts), a)
      ==> (Admits(c, Run(c, Initial(lag), acts), a)
           <==> NaiveAdmits(c, Run(c, Initial(lag), acts).admitted, a.now))
  }

  ghost predicate Safe(c: Config, lag: nat) {
    forall acts :: CanRun(c, Initial(lag), acts) ==> NeverOverAdmits(c, Run(c, Initial(lag), acts).admitted)
  }

  // ---------------------------------------------------------------- a key that expires too early

  function Burst(k: nat): seq<Action> {
    if k == 0 then [] else Burst(k - 1) + [Call(0, 0, k - 1, false, true)]
  }

  function Zeros(k: nat): seq<Entry> {
    if k == 0 then [] else Zeros(k - 1) + [Entry(0, k - 1)]
  }

  function Full(c: Config, lag: nat, k: nat): State {
    State(Zeros(k), if k == 0 then 0 else ExpiryMs(c), 0, 0, lag, Zeros(k), {})
  }

  lemma {:induction false} ZerosSpec(k: nat, lo: int, hi: int)
    requires lo < 0 <= hi
    ensures |Zeros(k)| == k && Pruned(Zeros(k), lo) == Zeros(k) && CountIn(Zeros(k), lo, hi) == k
    ensures forall e :: e in Zeros(k) ==> e.id < k && e.score == 0
  {
    if k > 0 {
      ZerosSpec(k - 1, lo, hi);
      assert Zeros(k)[..k - 1] == Zeros(k - 1);
    }
  }

  lemma BurstExecutes(c: Config, i: nat)
    requires i < c.limit && c.windowMs > 0 && c.expirySeconds > 0
    ensures Execute(c, Zeros(i), 0, i).entries == Zeros(i + 1) && Execute(c, Zeros(i), 0, i).count == i
  {
    ZerosSpec(i, 0 - c.windowMs, 0);
  }

  lemma BurstStep(c: Config, lag: nat, i: nat)
    requires i < c.limit && c.windowMs > 0 && c.expirySeconds > 0
    ensures var a := Call(0, 0, i, false, true);
      Enabled(Full(c, lag, i), a) && Admits(c, Full(c, lag, i), a) && Step(c, Full(c, lag, i), a) == Full(c, lag, i + 1)
  {
    ZerosSpec(i, -1, 0);
    BurstExecutes(c, i);
  }

  /** A serial run from the start in which every call was admitted. */
  predicate Reaches(c: Config, s: State, acts: seq<Action>, t: State) {
    CanRun(c, s, acts) && Run(c, s, acts) == t && Serial(c, s, acts)
  }

  predicate AdmitsTo(c: Config, s: State, a: Action, t: State) {
    a.Call? && Enabled(s, a) && Admits(c, s, a) && a.answered && Step(c, s, a) == t
  }

  lemma {:induction false} ReachesNext(c: Config, s: State, acts: seq<Action>, t: State, a: Action, u: State)
    requires Reaches(c, s, acts, t) && AdmitsTo(c, t, a, u)
    requires forall x :: x in acts ==> x.Call?
    ensures Reaches(c, s, acts + [a], u)
    decreases |acts|
  {
    assert [a][1..] == [];
    if acts == [] {
      assert [] + [a] == [a];
    } else {
      assert (acts + [a])[1..] == acts[1..] + [a];
      assert forall i :: 0 <= i < |acts| ==> acts[i] in acts;
      ReachesNext(c, Step(c, s, acts[0]), acts[1..], t, a, u);
    }
  }

  lemma {:induction false} BurstCalls(k: nat)
    ensures forall x :: x in Burst(k) ==> x.Call?
  {
    if k > 0 {
      BurstCalls(k - 1);
    }
  }

  lemma BurstAdmits(c: Config, lag: nat, i: nat)
    requires i < c.limit && c.windowMs > 0 && c.expirySeconds > 0
    ensures AdmitsTo(c, Full(c, lag, i), Call(0, 0, i, false, true), Full(c, lag, i + 1))
  {
    BurstStep(c, lag, i);
  }

  predicate Filled(c: Config, lag: nat, k: nat) {
    Reaches(c, Initial(lag), Burst(k), Full(c, lag, k))
  }

  lemma BurstStarts(c: Config, lag: nat)
    ensures Filled(c, lag, 0)
  {
    assert Full(c, lag, 0) == Initial(lag);
  }

  lemma BurstNext(c: Config, lag: nat, i: nat)
    requires i < c.limit && c.windowMs > 0 && c.expirySeconds > 0 && Filled(c, lag, i)
    ensures Filled(c, lag, i + 1)
  {
    BurstCalls(i);
    BurstAdmits(c, lag, i);
    var before, after := Full(c, lag, i), Full(c, lag, i + 1);
    ReachesNext(c, Initial(lag), Burst(i), before, Call(0, 0, i, false, true), after);
  }

  lemma BurstFills(c: Config, lag: nat, k: nat)
    requires k <= c.limit && c.windowMs > 0 && c.expirySeconds > 0
    ensures Filled(c, lag, k)
  {
    BurstStarts(c, lag);
    for i := 0 to k
      invariant Filled(c, lag, i)
    {
      BurstNext(c, lag, i);
    }
  }

  /** A call that executes when the key has just expired; it carries a time as much earlier as the lag allows. */
  function LateAction(c: Config, lag: nat): Action
    requires c.limit > 0 && 0 < ExpiryMs(c)
  {
    Call(Max(ExpiryMs(c) - lag, 0), ExpiryMs(c), c.limit, true, true)
  }

  lemma GoneIsAdmitted(c: Config, s: State, a: Action)
    requires a.Call? && a.answered && a.gone && c.limit > 0
    ensures Admits(c, s, a)
  {
  }

  lemma LateTimes(c: Config, lag: nat, a: Action)
    requires c.limit > 0 && 0 < ExpiryMs(c) && !Lasts(c, lag) && a == LateAction(c, lag)
    ensures a.now < c.windowMs && a.now <= a.at <= a.now + lag && a.at == ExpiryMs(c)
  {
  }

  lemma ZerosInWindow(c: Config, k: nat, e: Entry)
    requires e.score < c.windowMs
    ensures InWindow(Zeros(k), c.windowMs, e.score) == k
    ensures InWindow(Zeros(k) + [e], c.windowMs, e.score) == k + 1
    ensures forall x :: x in Zeros(k) ==> x.id < k
  {
    ZerosSpec(k, e.score - c.windowMs, e.score);
    CountConcat(Zeros(k), [e], e.score - c.windowMs, e.score);
    CountOne(e, e.score - c.windowMs, e.score);
  }

  /** The call that finds the key gone is admitted, one more than the window allows. */
  lemma LateCall(c: Config, lag: nat, a: Action)
    requires c.limit > 0 && 0 < ExpiryMs(c) && !Lasts(c, lag) && a == LateAction(c, lag)
    ensures var s := Full(c, lag, c.limit);
      && Enabled(s, a) && Admits(c, s, a) && !NaiveAdmits(c, s.admitted, a.now)
      && InWindow(Step(c, s, a).admitted, c.windowMs, a.now) == c.limit + 1
  {
    LateTimes(c, lag, a);
    ZerosInWindow(c, c.limit, Entry(a.now, a.id));
    GoneIsAdmitted(c, Full(c, lag, c.limit), a);
  }

  lemma LateRun(c: Config, lag: nat, a: Action)
    requires c.limit > 0 && 0 < ExpiryMs(c) && !Lasts(c, lag) && a == LateAction(c, lag)
    ensures var s := Full(c, lag, c.limit);
      && Reaches(c, Initial(lag), Burst(c.limit), s) && Enabled(s, a)
      && CanRun(c, Initial(lag), Burst(c.limit) + [a])
      && Run(c, Initial(lag), Burst(c.limit) + [a]) == Step(c, s, a)
  {
    var k: nat := c.limit;
    LateCall(c, lag, a);
    BurstFills(c, lag, k);
    BurstCalls(k);
    ReachesNext(c, Initial(lag), Burst(k), Full(c, lag, k), a, Step(c, Full(c, lag, k), a));
  }

  /** With members that do not outlast the window: a full burst, then one call when the key has just gone. */
  lemma EarlyExpiryBreaks(c: Config, lag: nat)
    requires c.limit > 0 && 0 < ExpiryMs(c) && !Lasts(c, lag)
    ensures !Refines(c, lag) && !Safe(c, lag)
  {
    var k: nat, a := c.limit, LateAction(c, lag);
    LateCall(c, lag, a);
    LateRun(c, lag, a);
    OverAdmitted(c, Run(c, Initial(lag), Burst(k) + [a]).admitted, a.now);
  }

  lemma OverAdmitted(c: Config, history: seq<Entry>, t: int)
    requires c.limit > 0 && InWindow(history, c.windowMs, t) > c.limit
    ensures !NeverOverAdmits(c, history)
  {
  }

  /** What a configuration must meet, in the terms it is written in. A store that is never late is enough for
      windows up to a second and whole seconds; any lag at all breaks every window of a second and more. */
  predicate Reliable(limit: int, windowMs: int, lag: nat) {
    || limit <= 0 || windowMs <= 0
    || (if lag == 0 then windowMs <= 1000 || windowMs % 1000 == 0 else windowMs + lag <= 1000)
  }

  lemma ConfigSensible(limit: int, windowNs: int, lag: nat)
    ensures var c := NewConfig(limit, windowNs);
      && Sensible(c) && (c.windowMs > 0 ==> ExpiryMs(c) > 0)
      && (limit <= 0 || Lasts(c, lag) <==> Reliable(limit, c.windowMs, lag))
  {
  }

  lemma InitialInv(c: Config, lag: nat)
    requires Sensible(c)
    ensures Inv(c, Initial(lag)) && Clean(Initial(lag))
  {
  }

  lemma SerialDecides(c: Config, lag: nat, acts: seq<Action>, a: Action)
    requires Sensible(c) && Lasts(c, lag) && Serial(c, Initial(lag), acts) && CanRun(c, Initial(lag), acts)
    requires a.Call? && a.answered && Enabled(Run(c, Initial(lag), acts), a)
    ensures var s := Run(c, Initial(lag), acts); Admits(c, s, a) <==> NaiveAdmits(c, s.admitted, a.now)
  {
    InitialInv(c, lag);
    SerialInv(c, Initial(lag), acts);
    RunKeepsLag(c, Initial(lag), acts);
    DecidesLikeNaive(c, Run(c, Initial(lag), acts), a);
  }

  lemma RunIsSafe(c: Config, lag: nat, acts: seq<Action>)
    requires Sensible(c) && Lasts(c, lag) && CanRun(c, Initial(lag), acts)
    ensures NeverOverAdmits(c, Run(c, Initial(lag), acts).admitted)
  {
    InitialInv(c, lag);
    RunInv(c, Initial(lag), acts);
    SafeHistory(c, Run(c, Initial(lag), acts));
  }

  lemma {:induction false} RunKeepsLag(c: Config, s: State, acts: seq<Action>)
    requires CanRun(c, s, acts)
    ensures Run(c, s, acts).lag == s.lag
    decreases |acts|
  {
    if acts != [] {
      RunKeepsLag(c, Step(c, s, acts[0]), acts[1..]);
    }
  }

  /** Serial runs decide exactly as the naive check, and neither pruning nor key expiry ever shows: if and only if
      the configuration is reliable for the lag. */
  lemma RefinesIffWholeSeconds(limit: int, windowNs: int, lag: nat)
    ensures var c := NewConfig(limit, windowNs); Refines(c, lag) <==> Reliable(limit, c.windowMs, lag)
  {
    var c := NewConfig(limit, windowNs);
    ConfigSensible(limit, windowNs, lag);
    if limit > 0 && !Lasts(c, lag) {
      EarlyExpiryBreaks(c, lag);
    } else {
      forall acts, a: Action | Serial(c, Initial(lag), acts) && CanRun(c, Initial(lag), acts) && a.Call? && a.answered
        && Enabled(Run(c, Initial(lag), acts), a)
        ensures Admits(c, Run(c, Initial(lag), acts), a)
          <==> NaiveAdmits(c, Run(c, Initial(lag), acts).admitted, a.now)
      {
        if limit > 0 {
          SerialDecides(c, lag, acts, a);
        }
      }
    }
  }

  /** Over every interleaving of calls and late removals no window holds more than `limit` admitted calls:
      under the same condition. */
  lemma SafeIffWholeSeconds(limit: int, windowNs: int, lag: nat)
    ensures var c := NewConfig(limit, windowNs); Safe(c, lag) <==> Reliable(limit, c.windowMs, lag)
  {
    var c := NewConfig(limit, windowNs);
    ConfigSensible(limit, windowNs, lag);
    if limit > 0 && !Lasts(c, lag) {
      EarlyExpiryBreaks(c, lag);
    } else {
      forall acts | CanRun(c, Initial(lag), acts)
        ensures NeverOverAdmits(c, Run(c, Initial(lag), acts).admitted)
      {
        if limit > 0 {
          RunIsSafe(c, lag, acts);
        } else {
          NothingAdmitted(c, Initial(lag), acts);
        }
      }
    }
  }

  lemma {:induction false} NothingAdmitted(c: Config, s: State, acts: seq<Action>)
    requires c.limit <= 0 && CanRun(c, s, acts)
    ensures Run(c, s, acts).admitted == s.admitted
    decreases |acts|
  {
    if acts != [] {
      NothingAdmitted(c, Step(c, s, acts[0]), acts[1..]);
    }
  }

  // ---------------------------------------------------------------- what is stored, for every window

  /** Entries in order, the last no later than `now`, each of which found its window with room. */
  predicate InOrder(c: Config, es: seq<Entry>, now: int) {
    es == []
    || (var x := es[|es| - 1];
        && x.score <= now && InOrder(c, es[..|es| - 1], x.score)
        && InWindow(es, c.windowMs, x.score) <= c.limit)
  }

  /** What is stored of admitted calls is in order and within the limit. Unlike the history, this holds however early
      the key expires. */
  predicate Stored(c: Config, s: State) {
    Sensible(c) && WithinLimit(c, s.entries, s.refused, s.last)
  }

  predicate WithinLimit(c: Config, es: seq<Entry>, refused: set<nat>, now: int) {
    InOrder(c, Kept(es, refused), now) && forall e :: e in es ==> e.score <= now
  }

  lemma {:induction false} InOrderSpec(c: Config, es: seq<Entry>, now: int)
    requires InOrder(c, es, now)
    ensures Ascending(es) && WindowsOk(c, es) && forall e :: e in es ==> e.score <= now
  {
    if es != [] {
      var n := |es| - 1;
      InOrderSpec(c, es[..n], es[n].score);
      assert es == es[..n] + [es[n]];
      AscendingSnoc(es[..n], es[n]);
    }
  }

  lemma {:induction false} CountPruned(es: seq<Entry>, upTo: int, lo: int, hi: int)
    ensures CountIn(Pruned(es, upTo), lo, hi) <= CountIn(es, lo, hi)
  {
    if es != [] {
      var n := |es| - 1;
      CountPruned(es[..n], upTo, lo, hi);
      CountConcat(Pruned(es[..n], upTo), [es[n]], lo, hi);
      CountOne(es[n], lo, hi);
      assert Pruned(es[..n], upTo) + [] == Pruned(es[..n], upTo);
    }
  }

  /** A call has counted every stored member of an admitted call, and those pending besides. */
  lemma AdmittedIsCounted(es: seq<Entry>, refused: set<nat>, lo: int, hi: int)
    requires forall x :: x in es ==> x.score <= hi
    ensures CountIn(Kept(es, refused), lo, hi) <= |Pruned(es, lo)|
  {
    PrunedSpec(es, lo, hi);
    KeptCount(es, refused, lo, hi);
  }

  lemma AppendInOrder(c: Config, es: seq<Entry>, e: Entry)
    requires InOrder(c, es, e.score) && InWindow(es, c.windowMs, e.score) < c.limit
    ensures InOrder(c, es + [e], e.score)
  {
    assert (es + [e])[..|es|] == es;
    CountConcat(es, [e], e.score - c.windowMs, e.score);
    CountOne(e, e.score - c.windowMs, e.score);
  }

  lemma {:induction false} PruneInOrder(c: Config, es: seq<Entry>, lo: int, now: int)
    requires InOrder(c, es, now)
    ensures InOrder(c, Pruned(es, lo), now)
  {
    if es != [] {
      var n := |es| - 1;
      PruneInOrder(c, es[..n], lo, es[n].score);
      if 0 <= es[n].score <= lo {
        assert Pruned(es, lo) == Pruned(es[..n], lo);
      } else {
        assert Pruned(es, lo)[..|Pruned(es, lo)| - 1] == Pruned(es[..n], lo);
        CountPruned(es, lo, es[n].score - c.windowMs, es[n].score);
      }
    }
  }

  /** The call's own entry joins if the window that ends with it has room. */
  lemma CallInOrder(c: Config, es: seq<Entry>, e: Entry)
    requires InOrder(c, es, e.score)
    ensures var pruned := Pruned(es, e.score - c.windowMs);
      && InOrder(c, pruned, e.score)
      && (InWindow(es, c.windowMs, e.score) < c.limit ==> InOrder(c, pruned + [e], e.score))
  {
    var lo := e.score - c.windowMs;
    PruneInOrder(c, es, lo, e.score);
    CountPruned(es, lo, lo, e.score);
    if InWindow(es, c.windowMs, e.score) < c.limit {
      AppendInOrder(c, Pruned(es, lo), e);
    }
  }

  /** What a call leaves of the members of admitted calls, with its own and without. */
  lemma KeptAfterPruning(es: seq<Entry>, refused: set<nat>, lo: int, e: Entry)
    requires e.id !in refused && forall x :: x in es ==> x.id != e.id
    ensures Kept(Pruned(es, lo) + [e], refused) == Pruned(Kept(es, refused), lo) + [e]
    ensures Kept(Pruned(es, lo) + [e], refused + {e.id}) == Pruned(Kept(es, refused), lo)
  {
    PrunedMembers(es, lo);
    KeptAfterCall(Pruned(es, lo), e, refused);
    KeptPruned(es, lo, refused);
  }

  /** The same, for a call that has counted no fewer. */
  lemma CountedInOrder(c: Config, es: seq<Entry>, size: nat, left: seq<Entry>, joined: seq<Entry>, e: Entry)
    requires InOrder(c, es, e.score) && InWindow(es, c.windowMs, e.score) <= size
    requires left == Pruned(es, e.score - c.windowMs) && joined == left + [e]
    ensures InOrder(c, left, e.score) && (size < c.limit ==> InOrder(c, joined, e.score))
  {
    CallInOrder(c, es, e);
  }

  lemma StoredAfter(c: Config, es: seq<Entry>, refused: set<nat>, e: Entry)
    requires WithinLimit(c, es, refused, e.score) && e.id !in refused && forall x :: x in es ==> x.id != e.id
    ensures var pruned := Pruned(es, e.score - c.windowMs);
      && InOrder(c, Kept(pruned + [e], refused + {e.id}), e.score)
      && (|pruned| < c.limit ==> InOrder(c, Kept(pruned + [e], refused), e.score))
  {
    var lo := e.score - c.windowMs;
    var pruned := Pruned(es, lo);
    AdmittedIsCounted(es, refused, lo, e.score);
    KeptAfterPruning(es, refused, lo, e);
    CountedInOrder(
      c, Kept(es, refused), |pruned|, Kept(pruned + [e], refused + {e.id}), Kept(pruned + [e], refused), e);
  }

  lemma CallWithinLimit(c: Config, es: seq<Entry>, refused: set<nat>, e: Entry)
    requires WithinLimit(c, es, refused, e.score) && e.id !in refused && forall x :: x in es ==> x.id != e.id
    ensures var x := Execute(c, es, e.score, e.id);
      && WithinLimit(c, x.entries, refused + {e.id}, e.score)
      && (Allows(c, x) ==> WithinLimit(c, x.entries, refused, e.score))
  {
    StoredByNow(c, es, e.score, e.id);
    if c.expirySeconds > 0 {
      StoredAfter(c, es, refused, e);
    }
  }

  /** What a call sees: the stored set, or nothing if the key is gone. */
  lemma SeenWithinLimit(c: Config, s: State, a: Action)
    requires Stored(c, s) && Enabled(s, a) && a.Call?
    ensures WithinLimit(c, Seen(s, a), s.refused, a.now) && forall e :: e in Seen(s, a) ==> e.id != a.id
  {
  }

  lemma CallKeepsStored(c: Config, s: State, a: Action)
    requires Stored(c, s) && Enabled(s, a) && a.Call?
    ensures Stored(c, Step(c, s, a))
  {
    SeenWithinLimit(c, s, a);
    CallWithinLimit(c, Seen(s, a), s.refused, Entry(a.now, a.id));
  }

  lemma StepKeepsStored(c: Config, s: State, a: Action)
    requires Stored(c, s) && Enabled(s, a)
    ensures Stored(c, Step(c, s, a))
  {
    if a.Call? {
      CallKeepsStored(c, s, a);
    } else {
      KeptRemoved(s.entries, s.refused, a.id);
      RemovedMembers(s.entries, a.id);
    }
  }

  lemma {:induction false} RunKeepsStored(c: Config, s: State, acts: seq<Action>)
    requires Stored(c, s) && CanRun(c, s, acts)
    ensures Stored(c, Run(c, s, acts))
    decreases |acts|
  {
    if acts != [] {
      StepKeepsStored(c, s, acts[0]);
      RunKeepsStored(c, Step(c, s, acts[0]), acts[1..]);
    }
  }

  /** In every run, for every window and lag, no window holds more than `limit` stored members of admitted calls:
      what goes over the limit has been forgotten first. */
  lemma StoredWithinLimit(limit: int, windowNs: int, lag: nat, acts: seq<Action>, t: int)
    requires CanRun(NewConfig(limit, windowNs), Initial(lag), acts)
    ensures var c := NewConfig(limit, windowNs);
      var s := Run(c, Initial(lag), acts);
      Stored(c, s) && InWindow(Kept(s.entries, s.refused), c.windowMs, t) <= Max(c.limit, 0)
  {
    var c := NewConfig(limit, windowNs);
    ConfigSensible(limit, windowNs, lag);
    RunKeepsStored(c, Initial(lag), acts);
    var s := Run(c, Initial(lag), acts);
    InOrderSpec(c, Kept(s.entries, s.refused), s.last);
    AnyWindow(c, Kept(s.entries, s.refused), t);
  }

  // ---------------------------------------------------------------- retrying

  lemma {:induction false} LowestSpec(es: seq<Entry>)
    requires es != []
    ensures exists e :: e in es && e.score == Lowest(es)
    ensures forall e :: e in es ==> Lowest(es) <= e.score
  {
    var n := |es| - 1;
    assert es == es[..n] + [es[n]];
    if n == 0 {
      assert es[0] in es;
    } else {
      LowestSpec(es[..n]);
      var e :| e in es[..n] && e.score == Lowest(es[..n]);
      assert e in es && es[n] in es;
    }
  }

  lemma {:induction false} CountAll(es: seq<Entry>, lo: int, hi: int)
    requires forall e :: e in es ==> e.score <= hi
    ensures CountIn(es, lo, hi) <= |es|
    ensures (forall e :: e in es ==> e.score > lo) ==> CountIn(es, lo, hi) == |es|
    ensures (exists e :: e in es && e.score <= lo) ==> CountIn(es, lo, hi) < |es|
  {
    if es != [] {
      var n := |es| - 1;
      assert es == es[..n] + [es[n]];
      CountAll(es[..n], lo, hi);
    }
  }

  lemma {:induction false} CountOfPruned(es: seq<Entry>, lo: int, lo': int, hi: int)
    requires lo <= lo'
    ensures CountIn(Pruned(es, lo), lo', hi) == CountIn(es, lo', hi)
  {
    if es != [] {
      var n := |es| - 1;
      CountOfPruned(es[..n], lo, lo', hi);
      assert Pruned(es[..n], lo) + [] == Pruned(es[..n], lo);
      CountConcat(Pruned(es[..n], lo), [es[n]], lo', hi);
      CountOne(es[n], lo', hi);
    }
  }

  /** The lowest score that a refused call in a clean state reads. */
  function OldestSeen(c: Config, s: State, a: Action): Option<nat>
    requires a.Call?
  {
    Execute(c, Seen(s, a), a.now, a.id).oldest
  }

  lemma OldestIsBefore(pruned: seq<Entry>, e: Entry)
    requires pruned != [] && forall x :: x in pruned ==> x.score <= e.score
    ensures exists x :: x in pruned && x.score == Lowest(pruned + [e])
    ensures forall x :: x in pruned ==> Lowest(pruned + [e]) <= x.score
  {
    LowestSpec(pruned + [e]);
    assert pruned[0] in pruned && pruned[0] in pruned + [e];
    var x :| x in pruned + [e] && x.score == Lowest(pruned + [e]);
    if x == e {
      assert pruned[0].score == Lowest(pruned + [e]);
    }
  }

  lemma NothingInside(es: seq<Entry>, lo: int, hi: int)
    requires hi <= lo && forall e :: e in es ==> e.score <= hi
    ensures Pruned(es, lo) == []
  {
    PrunedSpec(es, lo, hi);
    CountNone(es, lo, hi);
  }

  /** A refused call sees exactly `limit` entries. */
  lemma RefusedSeesLimit(c: Config, all: seq<Entry>, es: seq<Entry>, now: nat)
    requires SeesLatest(all, es, now - c.windowMs, now)
    requires |Pruned(es, now - c.windowMs)| >= c.limit > 0 && Ascending(all) && WindowsOk(c, all)
    ensures |Pruned(es, now - c.windowMs)| == c.limit && c.windowMs > 0
  {
    SeenCount(all, es, now - c.windowMs, now);
    AnyWindow(c, all, now);
    if c.windowMs <= 0 {
      NothingInside(es, now - c.windowMs, now);
    }
  }

  lemma CountBelow(es: seq<Entry>, oldest: int, lo: int, hi: int)
    requires forall e :: e in es ==> oldest <= e.score <= hi
    requires exists e :: e in es && e.score == oldest
    ensures CountIn(es, lo, hi) < |es| <==> oldest <= lo
  {
    CountAll(es, lo, hi);
  }

  lemma OldestInPruned(es: seq<Entry>, lo: int, call: Entry)
    requires Pruned(es, lo) != [] && lo < call.score && forall e :: e in es ==> e.score <= call.score
    ensures var oldest := Lowest(Pruned(es, lo) + [call]);
      && oldest > lo
      && (forall e :: e in Pruned(es, lo) ==> oldest <= e.score <= call.score)
      && (exists e :: e in Pruned(es, lo) && e.score == oldest)
  {
    PrunedSpec(es, lo, call.score);
    OldestIsBefore(Pruned(es, lo), call);
  }

  /** How many of the admitted calls are left in the window at a later time depends on the oldest alone. */
  lemma WindowLater(c: Config, all: seq<Entry>, es: seq<Entry>, call: Entry, later: nat)
    requires EndsWith(all, es, call.score - c.windowMs) && forall e :: e in es ==> e.score <= call.score
    requires |Pruned(es, call.score - c.windowMs)| == c.limit > 0 && call.score <= later && c.windowMs > 0
    ensures var oldest := Lowest(Pruned(es, call.score - c.windowMs) + [call]);
      && oldest + c.windowMs > call.score
      && (InWindow(all, c.windowMs, later) < c.limit <==> later >= oldest + c.windowMs)
  {
    var lo := call.score - c.windowMs;
    OldestInPruned(es, lo, call);
    LaterCount(all, es, lo, later - c.windowMs, later);
    CountBelow(Pruned(es, lo), Lowest(Pruned(es, lo) + [call]), later - c.windowMs, later);
  }

  lemma RefusedCount(c: Config, es: seq<Entry>, now: nat, id: nat)
    requires !Allows(c, Execute(c, es, now, id)) && c.expirySeconds > 0
    ensures |Pruned(es, now - c.windowMs)| >= c.limit
    ensures Execute(c, es, now, id).oldest == Some(Lowest(Pruned(es, now - c.windowMs) + [Entry(now, id)]))
  {
  }

  /** At a time `later` the window has room exactly if the entry scored `oldest` has left it. */
  predicate RoomFrom(c: Config, all: seq<Entry>, oldest: int, now: nat, later: nat) {
    && oldest + c.windowMs > now
    && (InWindow(all, c.windowMs, later) < c.limit <==> later >= oldest + c.windowMs)
  }

  /** What a refused call knows: the latest admitted calls, at least `limit` of them in its window, and the
      lowest score it reads back. */
  predicate SeenWhenRefused(c: Config, all: seq<Entry>, es: seq<Entry>, call: Entry, oldest: int) {
    && EndsWith(all, es, call.score - c.windowMs) && Ascending(all) && WindowsOk(c, all)
    && (forall e :: e in es ==> e.score <= call.score)
    && |Pruned(es, call.score - c.windowMs)| >= c.limit
    && oldest == Lowest(Pruned(es, call.score - c.windowMs) + [call])
  }

  lemma RefusedLater(c: Config, all: seq<Entry>, es: seq<Entry>, call: Entry, oldest: int, later: nat)
    requires SeenWhenRefused(c, all, es, call, oldest) && c.limit > 0 && call.score <= later
    ensures RoomFrom(c, all, oldest, call.score, later)
  {
    RefusedSeesLimit(c, all, es, call.score);
    WindowLater(c, all, es, call, later);
  }

  /** A call that is answered and refused, with no removal pending. Every state that a run reaches is `Stored`. */
  predicate Refused(c: Config, s: State, a: Action) {
    Stored(c, s) && Clean(s) && Enabled(s, a) && a.Call? && a.answered && c.limit > 0 && !Admits(c, s, a)
  }

  lemma NoWindowAdmits(c: Config, es: seq<Entry>, now: nat, id: nat)
    requires c.limit > 0 && c.windowMs <= 0 && forall e :: e in es ==> e.score <= now
    ensures Allows(c, Execute(c, es, now, id))
  {
    NothingInside(es, now - c.windowMs, now);
  }

  /** A refused call found the key, and there is a window to be refused for. */
  lemma RefusedIsTimely(c: Config, s: State, a: Action)
    requires Refused(c, s, a)
    ensures !a.gone && c.windowMs > 0 && c.expirySeconds > 0
  {
    if a.gone {
      GoneIsAdmitted(c, s, a);
    } else if c.windowMs <= 0 {
      NoWindowAdmits(c, s.entries, a.now, a.id);
    }
  }

  lemma RefusedFacts(c: Config, all: seq<Entry>, es: seq<Entry>, call: Entry)
    requires EndsWith(all, es, call.score - c.windowMs) && Ascending(all) && WindowsOk(c, all)
    requires forall e :: e in es ==> e.score <= call.score
    requires !Allows(c, Execute(c, es, call.score, call.id)) && c.expirySeconds > 0
    ensures var oldest := Execute(c, es, call.score, call.id).oldest;
      oldest.Some? && SeenWhenRefused(c, all, es, call, oldest.value)
  {
    RefusedCount(c, es, call.score, call.id);
  }

  lemma RefusedSees(c: Config, s: State, a: Action)
    requires Refused(c, s, a)
    ensures OldestSeen(c, s, a).Some?
    ensures SeenWhenRefused(c, s.entries, s.entries, Entry(a.now, a.id), OldestSeen(c, s, a).value)
  {
    RefusedIsTimely(c, s, a);
    NoneRefused(s.entries, s.refused);
    InOrderSpec(c, s.entries, s.last);
    RefusedFacts(c, s.entries, s.entries, Entry(a.now, a.id));
  }

  lemma RefusedWindow(c: Config, s: State, a: Action, later: nat)
    requires Refused(c, s, a) && a.now <= later
    ensures OldestSeen(c, s, a).Some? && RoomFrom(c, s.entries, OldestSeen(c, s, a).value, a.now, later)
  {
    RefusedSees(c, s, a);
    RefusedLater(c, s.entries, s.entries, Entry(a.now, a.id), OldestSeen(c, s, a).value, later);
  }

  lemma LaterCount(all: seq<Entry>, es: seq<Entry>, lo: int, lo': int, hi: int)
    requires EndsWith(all, es, lo) && lo <= lo'
    ensures CountIn(all, lo', hi) == CountIn(Pruned(es, lo), lo', hi)
  {
    TailCount(all, es, lo', hi);
    CountOfPruned(es, lo, lo', hi);
  }

  lemma {:induction false} RemovedNothing(es: seq<Entry>, id: nat)
    requires forall e :: e in es ==> e.id != id
    ensures Removed(es, id) == es
  {
    if es != [] {
      var n := |es| - 1;
      assert es[n] in es && es == es[..n] + [es[n]];
      RemovedNothing(es[..n], id);
    }
  }

  lemma RemovedLast(es: seq<Entry>, e: Entry)
    requires forall x :: x in es ==> x.id != e.id
    ensures Removed(es + [e], e.id) == es
  {
    RemovedNothing(es, e.id);
    assert (es + [e])[..|es|] == es;
  }

  lemma ExecutedRemoved(c: Config, es: seq<Entry>, e: Entry)
    requires c.expirySeconds > 0 && forall x :: x in es ==> x.id != e.id
    ensures Removed(Execute(c, es, e.score, e.id).entries, e.id) == Pruned(es, e.score - c.windowMs)
  {
    PrunedMembers(es, e.score - c.windowMs);
    RemovedLast(Pruned(es, e.score - c.windowMs), e);
  }

  /** A refused call leaves what it pruned. */
  lemma RefuseLeaves(c: Config, s: State, a: Action)
    requires Refused(c, s, a)
    ensures Refuse(c, s, a).entries == Pruned(s.entries, a.now - c.windowMs) && Refuse(c, s, a).last == a.now
  {
    RefusedIsTimely(c, s, a);
    ExecutedRemoved(c, s.entries, Entry(a.now, a.id));
  }

  lemma PrunedSize(es: seq<Entry>, lo: int, hi: int)
    requires forall e :: e in es ==> e.score <= hi
    ensures |Pruned(es, lo)| == CountIn(es, lo, hi)
  {
    PrunedSpec(es, lo, hi);
  }

  lemma PrunedBefore(es: seq<Entry>, lo: int, hi: int)
    requires forall e :: e in es ==> e.score <= hi
    ensures forall e :: e in Pruned(es, lo) ==> e.score <= hi
  {
    PrunedMembers(es, lo);
  }

  /** Pruning twice leaves the entries of the later window. */
  lemma PrunedTwice(es: seq<Entry>, lo: int, lo': int, hi: int)
    requires (forall e :: e in es ==> e.score <= hi) && lo <= lo'
    ensures |Pruned(Pruned(es, lo), lo')| == CountIn(es, lo', hi)
  {
    PrunedBefore(es, lo, hi);
    PrunedSize(Pruned(es, lo), lo', hi);
    CountOfPruned(es, lo, lo', hi);
  }

  /** A retry by a refused caller, with nothing in between. */
  predicate Retry(c: Config, s: State, a: Action, b: Action)
    requires Refused(c, s, a)
  {
    b.Call? && b.answered && Enabled(Refuse(c, s, a), b)
  }

  /** Such a retry is no earlier than any entry that the refused call saw. */
  lemma RetryIsLater(c: Config, s: State, a: Action, b: Action)
    requires Refused(c, s, a) && Retry(c, s, a, b)
    ensures a.now <= b.now && forall e :: e in s.entries ==> e.score <= b.now
  {
    RefuseLeaves(c, s, a);
  }

  /** A call that sees what an earlier one has pruned counts what its own window still holds. */
  lemma CountsWhatIsLeft(c: Config, es: seq<Entry>, lo: int, left: seq<Entry>, now: nat, id: nat)
    requires left == Pruned(es, lo) && lo <= now - c.windowMs && forall e :: e in es ==> e.score <= now
    ensures Allows(c, Execute(c, left, now, id)) <==> InWindow(es, c.windowMs, now) < c.limit
  {
    PrunedTwice(es, lo, now - c.windowMs, now);
  }

  lemma RetryCounts(c: Config, s: State, a: Action, b: Action)
    requires Refused(c, s, a) && Retry(c, s, a, b)
    ensures Allows(c, Execute(c, Refuse(c, s, a).entries, b.now, b.id))
      <==> InWindow(s.entries, c.windowMs, b.now) < c.limit
  {
    RefuseLeaves(c, s, a);
    RetryIsLater(c, s, a, b);
    CountsWhatIsLeft(c, s.entries, a.now - c.windowMs, Refuse(c, s, a).entries, b.now, b.id);
  }

  /** A refused caller that retries alone is admitted exactly from the moment the oldest admitted call leaves
      the window, or if the key is gone by then. */
  lemma RetryAlone(c: Config, s: State, a: Action, b: Action)
    requires Refused(c, s, a) && Retry(c, s, a, b)
    ensures OldestSeen(c, s, a).Some?
    ensures Admits(c, Refuse(c, s, a), b) <==> b.gone || b.now >= OldestSeen(c, s, a).value + c.windowMs
  {
    RefusedIsTimely(c, s, a);
    RefusedWindow(c, s, a, a.now);
    if !b.gone {
      RetryCounts(c, s, a, b);
      RefusedWindow(c, s, a, b.now);
    }
  }

  /** What a refused caller is told, from the oldest entry that it saw. */
  lemma RefusalSays(c: Config, s: State, a: Action)
    requires Refused(c, s, a)
    ensures OldestSeen(c, s, a).Some? && OldestSeen(c, s, a).value + c.windowMs > a.now
    ensures var r := Decide(c, Execute(c, Seen(s, a), a.now, a.id), a.now);
      var leaves := OldestSeen(c, s, a).value + c.windowMs;
      r.retryAfterSeconds == (leaves - a.now) / 1000 && r.resetAtSeconds == leaves / 1000
  {
    RefusedWindow(c, s, a, a.now);
  }

  /** Retry-After is rounded down: a caller that waits exactly that long, alone, is admitted only when the exact
      wait was a whole number of seconds, or if the key is gone by then. */
  lemma AdvertisedRetry(c: Config, s: State, a: Action, b: Action)
    requires Refused(c, s, a) && Retry(c, s, a, b)
    requires b.now == a.now + 1000 * Decide(c, Execute(c, Seen(s, a), a.now, a.id), a.now).retryAfterSeconds
    ensures OldestSeen(c, s, a).Some?
    ensures Admits(c, Refuse(c, s, a), b)
      <==> b.gone || (OldestSeen(c, s, a).value + c.windowMs - a.now) % 1000 == 0
  {
    RefusalSays(c, s, a);
    RetryAlone(c, s, a, b);
    WholeWait(OldestSeen(c, s, a).value + c.windowMs - a.now);
  }

  /** The reset time is rounded down as well. While the key is there, a lone retry before it is refused; from then
      on the retry is admitted once the milliseconds that rounding dropped have passed, so at the reset time itself
      only if there are none, and always a whole second later. */
  lemma ResetIsRoundedDown(c: Config, s: State, a: Action, b: Action)
    requires Refused(c, s, a) && Retry(c, s, a, b) && !b.gone
    ensures OldestSeen(c, s, a).Some?
    ensures var resetAt := Decide(c, Execute(c, Seen(s, a), a.now, a.id), a.now).resetAtSeconds;
      var dropped := (OldestSeen(c, s, a).value + c.windowMs) % 1000;
      && (Admits(c, Refuse(c, s, a), b) <==> b.now >= 1000 * resetAt + dropped)
      && (b.now < 1000 * resetAt ==> !Admits(c, Refuse(c, s, a), b))
      && (b.now == 1000 * resetAt ==> (Admits(c, Refuse(c, s, a), b) <==> dropped == 0))
      && (b.now >= 1000 * (resetAt + 1) ==> Admits(c, Refuse(c, s, a), b))
  {
    RefusalSays(c, s, a);
    RetryAlone(c, s, a, b);
  }

  lemma WholeWait(wait: nat)
    ensures 1000 * (wait / 1000) >= wait <==> wait % 1000 == 0
  {
  }

  /** Remaining counts the call it is reported to: with r reported, a second call at the same instant is
      admitted exactly if r is at least two, or if the key is gone by then. */
  lemma RemainingCountsThisCall(c: Config, s: State, a: Action, b: Action)
    requires Stored(c, s) && Enabled(s, a) && a.Call? && Admits(c, s, a) && c.windowMs > 0
    requires Enabled(Step(c, s, a), b) && b.Call? && b.answered && b.now == a.now
    ensures Admits(c, Step(c, s, a), b)
      <==> b.gone || Decide(c, Execute(c, Seen(s, a), a.now, a.id), a.now).remaining >= 2
  {
    var es := Seen(s, a);
    if !b.gone {
      CountedTwice(c, es, a.now, a.id, b.id);
      assert Seen(Step(c, s, a), b) == Execute(c, es, a.now, a.id).entries;
    }
  }

  lemma CountedTwice(c: Config, es: seq<Entry>, now: nat, id: nat, id': nat)
    requires c.windowMs > 0 && c.expirySeconds > 0 && forall x :: x in es ==> x.score <= now
    ensures var x := Execute(c, es, now, id); Execute(c, x.entries, now, id').count == x.count + 1
  {
    PrunedAgain(es, now - c.windowMs, Entry(now, id));
  }

  lemma PrunedAgain(es: seq<Entry>, lo: int, e: Entry)
    requires e.score > lo && forall x :: x in es ==> x.score <= e.score
    ensures |Pruned(Pruned(es, lo) + [e], lo)| == |Pruned(es, lo)| + 1
  {
    PrunedSpec(es, lo, e.score);
    PrunedNothing(Pruned(es, lo) + [e], lo);
  }

  // ---------------------------------------------------------------- an example

  /** One call every two seconds: a call at 0, another at 500, and retries. */
  const PER_TWO_SECONDS := Config(1, 2000, 2)

  lemma ExampleConfig()
    ensures PER_TWO_SECONDS == NewConfig(1, 2_000_000_000)
  {
  }

  const AFTER_FIRST := State([Entry(0, 0)], 2000, 0, 0, 0, [Entry(0, 0)], {})
  const AFTER_REFUSAL := State([Entry(0, 0)], 2500, 500, 500, 0, [Entry(0, 0)], {1})

  const EXAMPLE :=
    [Call(0, 0, 0, false, true)] + ([Call(500, 500, 1, false, true)] + ([Remove(1)] + []))

  lemma PrunedOne(e: Entry, lo: int)
    ensures Pruned([e], lo) == if e.score <= lo then [] else [e]
    ensures Pruned([], lo) == []
  {
    assert [e][..0] == [];
  }

  /** A run to the state in which the second call has been refused and its member removed. */
  lemma ExampleRun()
    ensures CanRun(PER_TWO_SECONDS, Initial(0), EXAMPLE)
    ensures Run(PER_TWO_SECONDS, Initial(0), EXAMPLE) == AFTER_REFUSAL
  {
    var c := PER_TWO_SECONDS;
    var a, b, d := Call(0, 0, 0, false, true), Call(500, 500, 1, false, true), Remove(1);
    FirstExampleCall();
    SecondExampleCall();
    assert CanRun(c, AFTER_REFUSAL, []) && Run(c, AFTER_REFUSAL, []) == AFTER_REFUSAL;
    RunThen(c, Step(c, AFTER_FIRST, b), d, []);
    RunThen(c, AFTER_FIRST, b, [d] + []);
    RunThen(c, Initial(0), a, [b] + ([d] + []));
  }

  lemma FirstExecutes()
    ensures Execute(PER_TWO_SECONDS, [], 0, 0) == Executed([Entry(0, 0)], 0, Some(0))
  {
    assert [] + [Entry(0, 0)] == [Entry(0, 0)];
  }

  lemma FirstExampleCall()
    ensures var c, a := PER_TWO_SECONDS, Call(0, 0, 0, false, true);
      Enabled(Initial(0), a) && Admits(c, Initial(0), a) && Step(c, Initial(0), a) == AFTER_FIRST
  {
    FirstExecutes();
    assert Seen(Initial(0), Call(0, 0, 0, false, true)) == [];
  }

  lemma SecondExecutes()
    ensures Execute(PER_TWO_SECONDS, [Entry(0, 0)], 500, 1) == Executed([Entry(0, 0), Entry(500, 1)], 1, Some(0))
  {
    PrunedOne(Entry(0, 0), -1500);
    var es := [Entry(0, 0)] + [Entry(500, 1)];
    assert es == [Entry(0, 0), Entry(500, 1)] && es[..1] == [Entry(0, 0)];
    assert Lowest([Entry(0, 0)]) == 0 && Lowest(es) == 0;
  }

  lemma SecondRemoved()
    ensures Removed([Entry(0, 0), Entry(500, 1)], 1) == [Entry(0, 0)]
  {
    var es := [Entry(0, 0), Entry(500, 1)];
    assert es[..1] == [Entry(0, 0)] && [Entry(0, 0)][..0] == [];
    assert Removed([Entry(0, 0)], 1) == [] + [Entry(0, 0)] == [Entry(0, 0)];
  }

  lemma SecondExampleCall()
    ensures var c, b := PER_TWO_SECONDS, Call(500, 500, 1, false, true);
      && Enabled(AFTER_FIRST, b) && !Admits(c, AFTER_FIRST, b)
      && Enabled(Step(c, AFTER_FIRST, b), Remove(1)) && Refuse(c, AFTER_FIRST, b) == AFTER_REFUSAL
  {
    SecondExecutes();
    SecondRemoved();
  }

  /** The first call reports one remaining, and the second is refused 500 ms later. It is told to wait one second
      and that the limit resets at second 2. After exactly that second it is refused again, and so at 1999 ms;
      at 2000 ms it is admitted. The calls are those of a run under the configuration that this limit gives. */
  lemma RetryExample(at: nat)
    requires at >= 500
    ensures PER_TWO_SECONDS == NewConfig(1, 2_000_000_000)
    ensures CanRun(PER_TWO_SECONDS, Initial(0), EXAMPLE)
    ensures Run(PER_TWO_SECONDS, Initial(0), EXAMPLE) == AFTER_REFUSAL
    ensures var c, b := PER_TWO_SECONDS, Call(at, at, 2, false, true);
      && Decide(c, Execute(c, [], 0, 0), 0).remaining == 1
      && Decide(c, Execute(c, AFTER_FIRST.entries, 500, 1), 500).retryAfterSeconds == 1
      && Decide(c, Execute(c, AFTER_FIRST.entries, 500, 1), 500).resetAtSeconds == 2
      && Enabled(AFTER_REFUSAL, b) && (Admits(c, AFTER_REFUSAL, b) <==> at >= 2000)
  {
    ExampleConfig();
    ExampleRun();
    FirstExecutes();
    SecondExecutes();
    PrunedOne(Entry(0, 0), at - 2000);
  }
}

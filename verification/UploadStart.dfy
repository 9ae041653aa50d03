/** The uploader's own methods for starting, as runs of the separate steps. */
module UploadStart {
  import opened Wrappers
  import opened Slicing
  import opened AdvancedUploader
  import opened UploadRuns

  /** The steps that create a session, if the backend allows it. */
  function CreateActs(i: nat, created: Option<(nat, Plan)>, writes: bool): seq<Action> {
    match created
    case None => [InitFailed(i)]
    case Some(session) => [Created(i, session.0, session.1, writes)]
  }

  /** The steps of an initialization by task i that nothing interrupts. */
  function InitActs(s: State, i: nat, status: Status, created: Option<(nat, Plan)>, writes: bool): seq<Action> {
    var create := if s.f.uploadId.None? then CreateActs(i, created, writes) else [];
    if s.saved.None? then [Load(i, false)] + create
    else
      match status
      case Alive(missing) => [Load(i, false)] + ([StatusAlive(i, missing)] + ([Adopt(i)] + []))
      case Completed => [Load(i, false)] + ([StatusCompleted(i)] + [])
      case Gone =>
        if writes then [Load(i, false)] + ([StatusFailed(i)] + create) else [Load(i, false)] + ([InitFailed(i)] + [])
  }

  /** What the backend may answer: it misses no part that it has lost, and new sessions are new and cover the file. */
  predicate MayAnswer(file: Bytes, s: State, status: Status, created: Option<(nat, Plan)>) {
    && (s.saved.Some? && status.Alive? ==> Truthful(s.srv, s.saved.value, status.missing))
    && (created.Some? ==> created.value.0 !in s.srv.sessions && Covers(|file|, created.value.1))
  }

  /** Task i of `t` has ended its initialization as the uploader's own method does; only the record in browser
      storage and the backend's sessions may have changed besides. */
  predicate InitializedAs(
    s: State, t: State, i: nat, status: Status, created: Option<(nat, Plan)>, writes: bool)
    requires i < |s.tasks|
  {
    var (f, init) := Initialized(s.f, s.saved, status, created, writes);
    && t == s.(f := f, tasks := s.tasks[i := if init.Active? then Ready else Ended], saved := t.saved, srv := t.srv)
    && t.srv ==
       (if NeedsSession(s.f, s.saved, status) && (s.saved.Some? ==> writes) && created.Some?
        then s.srv.(sessions := s.srv.sessions[created.value.0 := created.value.1]) else s.srv)
    && t.saved ==
       (if NeedsSession(s.f, s.saved, status) && init.Active? then Some(Snapshot(f))
        else if s.saved.Some? && status.Gone? && writes then None else s.saved)
  }

  lemma CreateIsSteps(file: Bytes, policy: Policy, s: State, i: nat, created: Option<(nat, Plan)>, writes: bool)
    requires i < |s.tasks| && s.tasks[i] == Creating && s.f.uploadId.None? && MayAnswer(file, s, Gone, created)
    ensures CanRun(file, policy, s, CreateActs(i, created, writes))
    ensures var t := Run(file, policy, s, CreateActs(i, created, writes));
      t == match created
        case None => Goto(s, i, Ended)
        case Some(session) => CreateStep(s, i, session.0, session.1, writes)
  {
    var a := CreateActs(i, created, writes)[0];
    RunThen(file, policy, s, a, []);
    assert [a] + [] == CreateActs(i, created, writes);
  }

  /** The last step of an initialization that creates no session, after the steps that led to `u`. */
  lemma LastStep(file: Bytes, policy: Policy, u: State, a: Action)
    requires Enabled(file, policy, u, a)
    ensures CanRun(file, policy, u, [a] + []) && Run(file, policy, u, [a] + []) == Step(file, policy, u, a)
  {
    RunThen(file, policy, u, a, []);
  }

  lemma FreshIsSteps(
      file: Bytes, policy: Policy, s: State, i: nat, status: Status, created: Option<(nat, Plan)>, writes: bool)
    requires i < |s.tasks| && s.tasks[i] == Loading && s.saved.None? && MayAnswer(file, s, status, created)
    ensures CanRun(file, policy, s, InitActs(s, i, status, created, writes))
    ensures InitializedAs(
              s, Run(file, policy, s, InitActs(s, i, status, created, writes)), i, status, created, writes)
  {
    var u := Step(file, policy, s, Load(i, false));
    if s.f.uploadId.None? {
      CreateIsSteps(file, policy, u, i, created, writes);
      RunThen(file, policy, s, Load(i, false), CreateActs(i, created, writes));
    } else {
      LastStep(file, policy, s, Load(i, false));
    }
  }

  /** The saved session is alive and is taken over. */
  lemma AdoptIsSteps(file: Bytes, policy: Policy, s: State, i: nat, r: Saved, missing: set<nat>)
    requires i < |s.tasks| && s.tasks[i] == Checking(r) && Truthful(s.srv, r, missing)
    ensures CanRun(file, policy, s, [StatusAlive(i, missing)] + ([Adopt(i)] + []))
    ensures Run(file, policy, s, [StatusAlive(i, missing)] + ([Adopt(i)] + []))
      == Goto(s.(f := WithStatus(s.f, r, missing)), i, Ready)
  {
    var v := Step(file, policy, s, StatusAlive(i, missing));
    assert v.tasks[i] == Answered(r, missing);
    LastStep(file, policy, v, Adopt(i));
    RunThen(file, policy, s, StatusAlive(i, missing), [Adopt(i)] + []);
    assert Step(file, policy, v, Adopt(i)).tasks == s.tasks[i := Ready];
  }

  lemma AliveIsSteps(
      file: Bytes, policy: Policy, s: State, i: nat, status: Status, created: Option<(nat, Plan)>, writes: bool)
    requires i < |s.tasks| && s.tasks[i] == Loading && s.saved.Some? && status.Alive?
    requires MayAnswer(file, s, status, created)
    ensures CanRun(file, policy, s, InitActs(s, i, status, created, writes))
    ensures InitializedAs(
              s, Run(file, policy, s, InitActs(s, i, status, created, writes)), i, status, created, writes)
  {
    var u := Goto(s, i, Checking(s.saved.value));
    AdoptIsSteps(file, policy, u, i, s.saved.value, status.missing);
    RunThen(file, policy, s, Load(i, false), [StatusAlive(i, status.missing)] + ([Adopt(i)] + []));
    assert u.tasks[i := Ready] == s.tasks[i := Ready];
  }

  lemma EndedIsSteps(
      file: Bytes, policy: Policy, s: State, i: nat, status: Status, created: Option<(nat, Plan)>, writes: bool)
    requires i < |s.tasks| && s.tasks[i] == Loading && s.saved.Some?
    requires status.Completed? || (status.Gone? && !writes)
    ensures CanRun(file, policy, s, InitActs(s, i, status, created, writes))
    ensures InitializedAs(
              s, Run(file, policy, s, InitActs(s, i, status, created, writes)), i, status, created, writes)
  {
    var u := Goto(s, i, Checking(s.saved.value));
    var a := if status.Completed? then StatusCompleted(i) else InitFailed(i);
    LastStep(file, policy, u, a);
    RunThen(file, policy, s, Load(i, false), [a] + []);
    assert Step(file, policy, u, a).tasks == s.tasks[i := Ended];
  }

  lemma GoneIsSteps(
      file: Bytes, policy: Policy, s: State, i: nat, created: Option<(nat, Plan)>)
    requires i < |s.tasks| && s.tasks[i] == Loading && s.saved.Some? && MayAnswer(file, s, Gone, created)
    ensures CanRun(file, policy, s, InitActs(s, i, Gone, created, true))
    ensures InitializedAs(s, Run(file, policy, s, InitActs(s, i, Gone, created, true)), i, Gone, created, true)
  {
    var u := Goto(s, i, Checking(s.saved.value));
    var v := Step(file, policy, u, StatusFailed(i));
    assert v.tasks == s.tasks[i := AfterLookup(s)];
    if s.f.uploadId.None? {
      CreateIsSteps(file, policy, v, i, created, true);
      RunThen(file, policy, u, StatusFailed(i), CreateActs(i, created, true));
      RunThen(file, policy, s, Load(i, false), [StatusFailed(i)] + CreateActs(i, created, true));
    } else {
      LastStep(file, policy, u, StatusFailed(i));
      RunThen(file, policy, s, Load(i, false), [StatusFailed(i)] + []);
    }
  }

  /** An initialization that nothing interrupts is a run of its steps, and does what the uploader's own method
      does. */
  lemma InitIsSteps(
      file: Bytes, policy: Policy, s: State, i: nat, status: Status, created: Option<(nat, Plan)>, writes: bool)
    requires i < |s.tasks| && s.tasks[i] == Loading && MayAnswer(file, s, status, created)
    ensures CanRun(file, policy, s, InitActs(s, i, status, created, writes))
    ensures InitializedAs(
              s, Run(file, policy, s, InitActs(s, i, status, created, writes)), i, status, created, writes)
  {
    if s.saved.None? {
      FreshIsSteps(file, policy, s, i, status, created, writes);
    } else if status.Alive? {
      AliveIsSteps(file, policy, s, i, status, created, writes);
    } else if status.Gone? && writes {
      GoneIsSteps(file, policy, s, i, created);
    } else {
      EndedIsSteps(file, policy, s, i, status, created, writes);
    }
  }

  /** A start that nothing interrupts, up to the point where its workers are let loose. */
  function StartActs(s: State, status: Status, created: Option<(nat, Plan)>, writes: bool): seq<Action> {
    var i := |s.tasks|;
    var init := InitActs(Started(s), i, status, created, writes);
    [Start] + if Initialized(Resumed(s.f), s.saved, status, created, writes).1.Active? then init + [OpenPool(i)]
              else init
  }

  /** It is a run of its steps, and leaves the fields, the queue and the workers that the uploader's own methods
      leave. */
  lemma StartIsSteps(
      file: Bytes, policy: Policy, s: State, status: Status, created: Option<(nat, Plan)>, writes: bool)
    requires Enabled(file, policy, s, Start) && MayAnswer(file, s, status, created)
    ensures CanRun(file, policy, s, StartActs(s, status, created, writes))
    ensures var (f, init) := Initialized(Resumed(s.f), s.saved, status, created, writes);
      var queue := Remaining(f.done, f.plan.totalParts);
      var t := Run(file, policy, s, StartActs(s, status, created, writes));
      && t.f == (if init.Active? then Armed(f) else f)
      && t.tasks == s.tasks +
         [if init.Active? then Pool(queue, 0, seq(Min(CONCURRENCY, |queue|), _ => Idle), false) else Ended]
  {
    var i, u := |s.tasks|, Started(s);
    var acts := InitActs(u, i, status, created, writes);
    InitIsSteps(file, policy, u, i, status, created, writes);
    var t := Run(file, policy, u, acts);
    if Initialized(u.f, u.saved, status, created, writes).1.Active? {
      assert t.tasks[i] == Ready;
      RunSnoc(file, policy, u, acts, OpenPool(i));
      RunThen(file, policy, s, Start, acts + [OpenPool(i)]);
    } else {
      RunThen(file, policy, s, Start, acts);
    }
  }

  // ---------------------------------------------------------------- a resumed upload sends what is missing

  /** A start that finds its saved session alive queues exactly the parts that are neither in the map already nor
      saved and held: for a fresh uploader, those that are missing or were never saved. */
  lemma ResumedQueue(
      file: Bytes, policy: Policy, s: State, status: Status, created: Option<(nat, Plan)>, writes: bool)
    requires Enabled(file, policy, s, Start) && MayAnswer(file, s, status, created)
    requires s.saved.Some? && status.Alive?
    ensures CanRun(file, policy, s, StartActs(s, status, created, writes))
    ensures var t := Run(file, policy, s, StartActs(s, status, created, writes));
      && |t.tasks| == |s.tasks| + 1 && t.tasks[|s.tasks|].Pool?
      && forall p :: p in t.tasks[|s.tasks|].queue <==>
           && 1 <= p <= s.saved.value.plan.totalParts && p !in s.f.done
           && !(p in s.saved.value.done && p !in status.missing)
  {
    StartIsSteps(file, policy, s, status, created, writes);
    InitializedByStatus(Resumed(s.f), s.saved, status, created, writes);
    var f := Initialized(Resumed(s.f), s.saved, status, created, writes).0;
    RemainingIsExact(f.done, f.plan.totalParts);
  }

  /** A task that does not send part p, now or later. */
  predicate Spares(t: Task, p: nat) {
    t.Pool? ==> p !in t.queue && forall w :: 0 <= w < |t.workers| && t.workers[w].Putting? ==> t.workers[w].part != p
  }

  predicate Spared(s: State, i: nat, p: nat) {
    p in s.f.done && (i < |s.tasks| ==> Spares(s.tasks[i], p))
  }

  lemma GotoSpares(s: State, i: nat, t: Task, j: nat, p: nat)
    requires Spared(s, j, p) && i < |s.tasks| && (i == j ==> Spares(t, p))
    ensures Spared(Goto(s, i, t), j, p)
  {
  }

  /** A worker of a pool that spares the part may change to anything that is not sending it. */
  lemma SetWorkerSpares(s: State, i: nat, w: nat, x: Worker, j: nat, p: nat)
    requires Spared(s, j, p) && HasWorker(s, i, w) && (i == j && x.Putting? ==> x.part != p)
    ensures Spared(SetWorker(s, i, w, x), j, p) && Spared(FailWorker(s, i, w), j, p)
  {
    GotoSpares(s, i, s.tasks[i].(workers := s.tasks[i].workers[w := x]), j, p);
    GotoSpares(s, i, s.tasks[i].(workers := s.tasks[i].workers[w := Finished], failed := true), j, p);
  }

  lemma PickSpares(file: Bytes, s: State, i: nat, w: nat, hasUrl: bool, j: nat, p: nat)
    requires HasWorker(s, i, w) && Spared(s, j, p)
    ensures Spared(PickStep(file, s, i, w, hasUrl), j, p)
  {
    var t := s.tasks[i];
    var taken := Goto(s, i, t.(index := t.index + 1));
    GotoSpares(s, i, t.(index := t.index + 1), j, p);
    SetWorkerSpares(s, i, w, Finished, j, p);
    SetWorkerSpares(taken, i, w, Finished, j, p);
    if t.index < |t.queue| && s.f.uploadId.Some? && t.queue[t.index] >= 1 {
      var part := t.queue[t.index];
      assert part in t.queue;
      SetWorkerSpares(
        taken, i, w, Putting(s.f.uploadId.value, part, PartBytes(file, s.f.plan.partSize, part), 0, false), j, p);
    }
  }

  lemma RespondSpares(s: State, i: nat, w: nat, ok: bool, j: nat, p: nat)
    requires Spared(s, j, p) && HasWorker(s, i, w) && s.tasks[i].workers[w].Putting?
    ensures Spared(RespondStep(s, i, w, ok), j, p)
  {
    var x := s.tasks[i].workers[w];
    assert i == j ==> x.part != p;
    SetWorkerSpares(s, i, w, Finished, j, p);
    if ok {
      var f := WithPart(s.f, x.part, Md5(x.content));
      SetWorkerSpares(s.(f := f, saved := if f.uploadId.Some? then Some(Snapshot(f)) else s.saved), i, w, Idle, j, p);
    } else if x.attempt + 1 < MAX_RETRIES {
      SetWorkerSpares(s, i, w, x.(attempt := x.attempt + 1, landed := false), j, p);
    }
  }

  lemma LandSpares(file: Bytes, policy: Policy, s: State, a: Action, j: nat, p: nat)
    requires Enabled(file, policy, s, a) && Spared(s, j, p) && (a.Land? || a.Leave?)
    ensures Spared(Step(file, policy, s, a), j, p)
  {
    var x := s.tasks[a.i].workers[a.w];
    assert a.i == j ==> x.part != p;
    SetWorkerSpares(s, a.i, a.w, Idle, j, p);
    var t := s.(srv := s.srv.(stored := s.srv.stored[(x.sid, x.part) := x.content]));
    SetWorkerSpares(t, a.i, a.w, x.(landed := true), j, p);
  }

  lemma OpenSpares(file: Bytes, policy: Policy, s: State, a: Action, j: nat, p: nat)
    requires Enabled(file, policy, s, a) && Spared(s, j, p) && a.OpenPool?
    ensures Spared(Step(file, policy, s, a), j, p)
  {
    RemainingIsExact(s.f.done, s.f.plan.totalParts);
  }

  lemma LookupSpares(file: Bytes, policy: Policy, s: State, a: Action, j: nat, p: nat)
    requires Enabled(file, policy, s, a) && Spared(s, j, p)
    requires a.Load? || a.StatusFailed? || a.InitFailed? || a.StatusAlive?
    ensures Spared(Step(file, policy, s, a), j, p)
  {
  }

  /** A session that is put in use takes no part out of the map. */
  lemma SessionSpares(file: Bytes, policy: Policy, s: State, a: Action, j: nat, p: nat)
    requires Enabled(file, policy, s, a) && Spared(s, j, p) && (a.Adopt? || a.StatusCompleted? || a.Created?)
    ensures Spared(Step(file, policy, s, a), j, p)
  {
  }

  /** The steps that leave the workers of a pool alone only ever add to the map. */
  lemma OtherSpares(file: Bytes, policy: Policy, s: State, a: Action, j: nat, p: nat)
    requires Enabled(file, policy, s, a) && Spared(s, j, p) && !a.Reload? && !a.OpenPool?
    requires !a.Pick? && !a.Land? && !a.Respond? && !a.SaveFailed? && !a.Leave?
    ensures Spared(Step(file, policy, s, a), j, p)
  {
    if a.Load? || a.StatusFailed? || a.InitFailed? || a.StatusAlive? {
      LookupSpares(file, policy, s, a, j, p);
    } else if a.Adopt? || a.StatusCompleted? || a.Created? {
      SessionSpares(file, policy, s, a, j, p);
    }
  }

  lemma StepSpares(file: Bytes, policy: Policy, s: State, a: Action, j: nat, p: nat)
    requires Enabled(file, policy, s, a) && Spared(s, j, p) && !a.Reload?
    ensures Spared(Step(file, policy, s, a), j, p)
  {
    match a
    case Pick(i, w, hasUrl) => PickSpares(file, s, i, w, hasUrl, j, p);
    case Respond(i, w, ok) => RespondSpares(s, i, w, ok, j, p);
    case SaveFailed(i, w) =>
      var x := s.tasks[i].workers[w];
      RespondSpares(s.(f := WithPart(s.f, x.part, Md5(x.content))), i, w, false, j, p);
    case Land(_, _) => LandSpares(file, policy, s, a, j, p);
    case Leave(_, _) => LandSpares(file, policy, s, a, j, p);
    case OpenPool(_) => OpenSpares(file, policy, s, a, j, p);
    case _ => OtherSpares(file, policy, s, a, j, p);
  }

  /** A part that is in the map is not sent by any start that opens its pool later, until the uploader is left. */
  lemma {:induction false} NeverSentAgain(file: Bytes, policy: Policy, s: State, acts: seq<Action>, i: nat, p: nat)
    requires CanRun(file, policy, s, acts) && Spared(s, i, p) && forall k :: 0 <= k < |acts| ==> !acts[k].Reload?
    ensures Spared(Run(file, policy, s, acts), i, p)
    decreases |acts|
  {
    if acts != [] {
      StepSpares(file, policy, s, acts[0], i, p);
      NeverSentAgain(file, policy, Step(file, policy, s, acts[0]), acts[1..], i, p);
    }
  }

  /** In every run, an upload that has taken over its saved session never sends a part again that is saved and not
      reported missing. */
  lemma SavedPartsAreSpared(file: Bytes, policy: Policy, s: State, acts: seq<Action>, i: nat, p: nat)
    requires Enabled(file, policy, s, Adopt(i)) && p in s.tasks[i].saved.done && p !in s.tasks[i].missing
    requires CanRun(file, policy, Step(file, policy, s, Adopt(i)), acts)
    requires forall k :: 0 <= k < |acts| ==> !acts[k].Reload?
    ensures Spared(Run(file, policy, Step(file, policy, s, Adopt(i)), acts), i, p)
  {
    NeverSentAgain(file, policy, Step(file, policy, s, Adopt(i)), acts, i, p);
  }
}

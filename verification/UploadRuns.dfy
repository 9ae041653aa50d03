/** Runs of the resumable uploader: cooperative tasks, pauses, network loss, cancellation and page
    reloads, against a backend and an object store. Each step is what one task does between two awaits,
    or what the environment does meanwhile. */
module UploadRuns {
  import opened Wrappers
  import opened Slicing
  import opened AdvancedUploader

  type Store = map<(nat, nat), Bytes>

  /** The backend's sessions and the parts held, by session and part number. An aborted session has lost its parts
      for good: the uploader cancelled it, or it expired. */
  datatype Server = Server(sessions: map<nat, Plan>, stored: Store, aborted: set<nat>)

  /** `Putting` holds the session whose URL the part is sent to and the bytes cut for it. */
  datatype Worker =
    | Idle
    | Putting(sid: nat, part: nat, content: Bytes, attempt: nat, landed: bool)
    | Finished

  /** Where a call to start is suspended; `Answered` has been told that the saved session is alive. */
  datatype Task =
    | Loading
    | Checking(saved: Saved)
    | Answered(saved: Saved, missing: set<nat>)
    | Creating
    | Ready
    | Pool(queue: seq<nat>, index: nat, workers: seq<Worker>, failed: bool)
    | Ended

  /** A call to completeUpload, with the store as it is at that moment. */
  datatype Completion = Completion(sid: nat, plan: Plan, parts: Parts, stored: Store)

  /** `aborting` are the sessions whose abort is on its way to the backend, and `deleting` says that a cancel
      may still delete the record in browser storage. */
  datatype State = State(
    f: Fields, tasks: seq<Task>, cancelled: bool, aborting: set<nat>, deleting: bool, saved: Option<Saved>,
    srv: Server, completions: seq<Completion>)

  /** What is allowed to happen. The page may call start while an earlier start is still initializing, or after
      cancel. The network may come back and resume the upload by itself at either time. The page may be left, or a new
      uploader made for the file, while an abort is on its way. A session may expire that the page is using. */
  datatype Policy = Policy(
    startDuringInit: bool, startAfterCancel: bool, onlineDuringInit: bool, onlineAfterCancel: bool,
    leaveDuringCancel: bool, expireInUse: bool)

  /** A new uploader for the file takes over with `Reload`, on a new page or on the same one. */
  datatype Action =
    | Start
    | Pause
    | Offline
    | Online
    | Cancel
    | AbortEnds(sid: nat, reached: bool)
    | DeleteRecord
    | Expire(sid: nat)
    | Reload(online: bool)
    | Load(i: nat, expired: bool)
    | StatusAlive(i: nat, missing: set<nat>)
    | Adopt(i: nat)
    | StatusCompleted(i: nat)
    | StatusFailed(i: nat)
    | Created(i: nat, sid: nat, plan: Plan, kept: bool)
    | InitFailed(i: nat)
    | OpenPool(i: nat)
    | Pick(i: nat, w: nat, hasUrl: bool)
    | Land(i: nat, w: nat)
    | Respond(i: nat, w: nat, ok: bool)
    | SaveFailed(i: nat, w: nat)
    | Leave(i: nat, w: nat)
    | Join(i: nat, completed: bool)
    | LatePut(sid: nat, part: nat)

  const INITIAL := State(FRESH, [], false, {}, false, None, Server(map[], map[], {}), [])

  // ---------------------------------------------------------------- steps

  predicate Initializing(t: Task) {
    t.Loading? || t.Checking? || t.Answered? || t.Creating?
  }

  predicate MayBegin(duringInit: bool, afterCancel: bool, s: State) {
    && (duringInit || forall i :: 0 <= i < |s.tasks| ==> !Initializing(s.tasks[i]))
    && (afterCancel || !s.cancelled)
  }

  /** The backend's missing list names at least every part the store does not hold. */
  predicate Truthful(srv: Server, s: Saved, missing: set<nat>) {
    forall p :: 1 <= p <= s.plan.totalParts && (s.sid, p) !in srv.stored ==> p in missing
  }

  /** The page holds this session, or has just been told that it is alive. */
  predicate InUse(s: State, sid: nat) {
    || s.f.uploadId == Some(sid)
    || exists i :: 0 <= i < |s.tasks| && s.tasks[i].Answered? && s.tasks[i].saved.sid == sid
  }

  predicate HasWorker(s: State, i: nat, w: nat) {
    i < |s.tasks| && s.tasks[i].Pool? && w < |s.tasks[i].workers|
  }

  predicate Enabled(file: Bytes, policy: Policy, s: State, a: Action) {
    match a
    case Start => MayBegin(policy.startDuringInit, policy.startAfterCancel, s)
    case Pause => true
    case Offline => true
    case Online => ResumesOnline(s.f) ==> MayBegin(policy.onlineDuringInit, policy.onlineAfterCancel, s)
    case Cancel => true
    case AbortEnds(sid, _) => sid in s.aborting
    case DeleteRecord => s.deleting
    case Expire(sid) => policy.expireInUse || !InUse(s, sid)
    case Reload(_) => policy.leaveDuringCancel || s.aborting == {}
    case Load(i, _) => i < |s.tasks| && s.tasks[i].Loading?
    case StatusAlive(i, missing) =>
      i < |s.tasks| && s.tasks[i].Checking? && Truthful(s.srv, s.tasks[i].saved, missing)
    case Adopt(i) => i < |s.tasks| && s.tasks[i].Answered?
    case StatusCompleted(i) => i < |s.tasks| && s.tasks[i].Checking?
    case StatusFailed(i) => i < |s.tasks| && s.tasks[i].Checking?
    case Created(i, sid, plan, _) =>
      i < |s.tasks| && s.tasks[i].Creating? && sid !in s.srv.sessions && Covers(|file|, plan)
    case InitFailed(i) => i < |s.tasks| && (s.tasks[i].Loading? || s.tasks[i].Checking? || s.tasks[i].Creating?)
    case OpenPool(i) => i < |s.tasks| && s.tasks[i].Ready?
    case Pick(i, w, hasUrl) => HasWorker(s, i, w) && s.tasks[i].workers[w].Idle?
    case Land(i, w) => HasWorker(s, i, w) && s.tasks[i].workers[w].Putting?
    case Respond(i, w, ok) =>
      HasWorker(s, i, w) && s.tasks[i].workers[w].Putting? && (ok ==> s.tasks[i].workers[w].landed)
    case SaveFailed(i, w) => HasWorker(s, i, w) && s.tasks[i].workers[w].Putting? && s.tasks[i].workers[w].landed
    case Leave(i, w) => HasWorker(s, i, w) && s.tasks[i].workers[w].Putting? && (s.f.paused || s.f.offline)
    case Join(i, _) =>
      i < |s.tasks| && s.tasks[i].Pool? && !s.tasks[i].failed
      && forall w :: 0 <= w < |s.tasks[i].workers| ==> s.tasks[i].workers[w].Finished?
    case LatePut(sid, part) =>
      sid in s.srv.sessions && sid !in s.srv.aborted && 1 <= part <= s.srv.sessions[sid].totalParts
  }

  function Goto(s: State, i: nat, t: Task): State
    requires i < |s.tasks|
  {
    s.(tasks := s.tasks[i := t])
  }

  function SetWorker(s: State, i: nat, w: nat, x: Worker): State
    requires HasWorker(s, i, w)
  {
    Goto(s, i, s.tasks[i].(workers := s.tasks[i].workers[w := x]))
  }

  function FailWorker(s: State, i: nat, w: nat): State
    requires HasWorker(s, i, w)
  {
    Goto(s, i, s.tasks[i].(workers := s.tasks[i].workers[w := Finished], failed := true))
  }

  function Started(s: State): State {
    s.(f := Resumed(s.f), tasks := s.tasks + [Loading])
  }

  /** Without a usable session a new one is requested, unless the uploader already has one. */
  function AfterLookup(s: State): Task {
    if s.f.uploadId.None? then Creating else Ready
  }

  /** The backend gives up a session, and the store drops its parts. */
  function Drop(srv: Server, sid: nat): Server {
    srv.(aborted := srv.aborted + {sid}, stored := map k | k in srv.stored && k.0 != sid :: srv.stored[k])
  }

  function Step(file: Bytes, policy: Policy, s: State, a: Action): State
    requires Enabled(file, policy, s, a)
  {
    match a
    case Start => Started(s)
    case Pause => s.(f := Paused(s.f))
    case Offline => s.(f := WentOffline(s.f))
    case Online =>
      var t := s.(f := WentOnline(s.f));
      if ResumesOnline(s.f) then Started(t) else t
    case Cancel => CancelStep(s)
    case AbortEnds(sid, reached) => AbortStep(s, sid, reached)
    case DeleteRecord => s.(saved := None, deleting := false)
    case Expire(sid) => s.(srv := Drop(s.srv, sid))
    case Reload(online) => s.(f := FRESH.(offline := !online), tasks := [], cancelled := false)
    case Load(i, expired) =>
      if s.saved.Some? && !expired then Goto(s, i, Checking(s.saved.value))
      else Goto(s.(saved := None), i, AfterLookup(s))
    case StatusAlive(i, missing) => Goto(s, i, Answered(s.tasks[i].saved, missing))
    case Adopt(i) => Goto(s.(f := WithStatus(s.f, s.tasks[i].saved, s.tasks[i].missing)), i, Ready)
    case StatusCompleted(i) =>
      Goto(s.(f := WithSession(s.f, s.tasks[i].saved.sid, s.tasks[i].saved.plan)), i, Ended)
    case StatusFailed(i) => Goto(s.(saved := None), i, AfterLookup(s))
    case Created(i, sid, plan, kept) => CreateStep(s, i, sid, plan, kept)
    case InitFailed(i) => Goto(s, i, Ended)
    case OpenPool(i) =>
      var queue := Remaining(s.f.done, s.f.plan.totalParts);
      var workers := seq(Min(CONCURRENCY, |queue|), _ => Idle);
      Goto(s.(f := Armed(s.f)), i, Pool(queue, 0, workers, false))
    case Pick(i, w, hasUrl) => PickStep(file, s, i, w, hasUrl)
    case Land(i, w) =>
      var x := s.tasks[i].workers[w];
      if x.sid in s.srv.aborted then s
      else SetWorker(s.(srv := s.srv.(stored := s.srv.stored[(x.sid, x.part) := x.content])), i, w, x.(landed := true))
    case Respond(i, w, ok) => RespondStep(s, i, w, ok)
    case SaveFailed(i, w) => SaveFailedStep(s, i, w)
    case Leave(i, w) => SetWorker(s, i, w, Idle)
    case Join(i, completed) => JoinStep(s, i, completed)
    case LatePut(sid, part) =>
      s.(srv := s.srv.(stored := s.srv.stored[(sid, part) := PartBytes(file, s.srv.sessions[sid].partSize, part)]))
  }

  /** The new session is in use at once; start fails if its record cannot be put in browser storage. */
  function CreateStep(s: State, i: nat, sid: nat, plan: Plan, kept: bool): State
    requires i < |s.tasks|
  {
    var f := WithSession(s.f, sid, plan);
    var t := s.(f := f, srv := s.srv.(sessions := s.srv.sessions[sid := plan]));
    if kept then Goto(t.(saved := Some(Snapshot(f))), i, Ready) else Goto(t, i, Ended)
  }

  /** Cancel up to its first await: the abort of the session in use is sent. */
  function CancelStep(s: State): State {
    s.(f := Paused(s.f), cancelled := true,
       aborting := if s.f.uploadId.None? then s.aborting else s.aborting + {s.f.uploadId.value})
  }

  /** The abort has been carried out by the backend or has failed. Cancel goes on, if its page is still there. */
  function AbortStep(s: State, sid: nat, reached: bool): State {
    var t := s.(aborting := s.aborting - {sid}, deleting := true);
    if reached then t.(srv := Drop(s.srv, sid)) else t
  }

  function PickStep(file: Bytes, s: State, i: nat, w: nat, hasUrl: bool): State
    requires HasWorker(s, i, w)
  {
    var t := s.tasks[i];
    if t.index < |t.queue| && !s.f.paused && !s.f.offline then
      var part := t.queue[t.index];
      var taken := Goto(s, i, t.(index := t.index + 1));
      if hasUrl && part >= 1 && s.f.uploadId.Some? then
        SetWorker(taken, i, w, Putting(s.f.uploadId.value, part, PartBytes(file, s.f.plan.partSize, part), 0, false))
      else FailWorker(taken, i, w)
    else SetWorker(s, i, w, Finished)
  }

  function RespondStep(s: State, i: nat, w: nat, ok: bool): State
    requires HasWorker(s, i, w) && s.tasks[i].workers[w].Putting?
  {
    var x := s.tasks[i].workers[w];
    if ok then
      var f := WithPart(s.f, x.part, Md5(x.content));
      SetWorker(s.(f := f, saved := if f.uploadId.Some? then Some(Snapshot(f)) else s.saved), i, w, Idle)
    else if x.attempt + 1 < MAX_RETRIES then SetWorker(s, i, w, x.(attempt := x.attempt + 1, landed := false))
    else FailWorker(s, i, w)
  }

  /** The part is recorded, but a failing write to browser storage makes its worker try it again. */
  function SaveFailedStep(s: State, i: nat, w: nat): State
    requires HasWorker(s, i, w) && s.tasks[i].workers[w].Putting?
  {
    var x := s.tasks[i].workers[w];
    RespondStep(s.(f := WithPart(s.f, x.part, Md5(x.content))), i, w, false)
  }

  function JoinStep(s: State, i: nat, completed: bool): State
    requires i < |s.tasks|
  {
    var t := Goto(s, i, Ended);
    if !MayComplete(s.f) then t
    else t.(completions := s.completions + [Completion(s.f.uploadId.value, s.f.plan, s.f.done, s.srv.stored)],
            saved := if completed then None else s.saved)
  }

  predicate CanRun(file: Bytes, policy: Policy, s: State, acts: seq<Action>)
    decreases |acts|
  {
    acts == []
    || (Enabled(file, policy, s, acts[0]) && CanRun(file, policy, Step(file, policy, s, acts[0]), acts[1..]))
  }

  function Run(file: Bytes, policy: Policy, s: State, acts: seq<Action>): State
    requires CanRun(file, policy, s, acts)
    decreases |acts|
  {
    if acts == [] then s else Run(file, policy, Step(file, policy, s, acts[0]), acts[1..])
  }

  // ---------------------------------------------------------------- what a completion must be

  function Numbers(n: nat): set<nat> {
    if n == 0 then {} else Numbers(n - 1) + {n}
  }

  /** The object the store assembles from parts 1..n of a session. */
  function Object(stored: Store, sid: nat, n: nat): Bytes
    requires forall p :: 1 <= p <= n ==> (sid, p) in stored
  {
    if n == 0 then [] else Object(stored, sid, n - 1) + stored[(sid, n)]
  }

  /** The list has exactly the keys 1..totalParts, each with the tag of a part the store holds, and the
      parts assemble to the file. */
  predicate Good(file: Bytes, c: Completion) {
    && c.parts.Keys == Numbers(c.plan.totalParts)
    && (forall p :: 1 <= p <= c.plan.totalParts ==>
          (c.sid, p) in c.stored && p in c.parts && c.parts[p] == Md5(c.stored[(c.sid, p)]))
    && Object(c.stored, c.sid, c.plan.totalParts) == file
  }

  // ---------------------------------------------------------------- invariant

  predicate ServerOk(file: Bytes, srv: Server) {
    && (forall sid :: sid in srv.sessions ==> Covers(|file|, srv.sessions[sid]))
    && (forall k :: k in srv.stored ==>
          k.0 in srv.sessions && 1 <= k.1 <= srv.sessions[k.0].totalParts
          && srv.stored[k] == PartBytes(file, srv.sessions[k.0].partSize, k.1))
  }

  /** A known session with its own plan, and tags of the right bytes for parts of that plan. */
  predicate RecordOk(file: Bytes, srv: Server, r: Saved) {
    && r.sid in srv.sessions && r.plan == srv.sessions[r.sid]
    && (forall p :: p in r.done ==>
          1 <= p <= r.plan.totalParts && r.done[p] == Md5(PartBytes(file, r.plan.partSize, p)))
  }

  predicate HeldFor(srv: Server, sid: nat, done: Parts) {
    forall p :: p in done ==> (sid, p) in srv.stored
  }

  predicate FieldsOk(file: Bytes, s: State) {
    match s.f.uploadId
    case None => s.f.done == map[]
    case Some(sid) =>
      RecordOk(file, s.srv, Snapshot(s.f)) && (s.cancelled || HeldFor(s.srv, sid, s.f.done))
  }

  predicate SameSession(s: State, r: Saved) {
    && (s.f.uploadId.Some? ==> r.sid == s.f.uploadId.value)
    && (s.saved.Some? ==> r.sid == s.saved.value.sid)
  }

  predicate WorkerOk(file: Bytes, s: State, x: Worker)
    requires s.f.uploadId.Some?
  {
    x.Putting? ==>
      && x.sid == s.f.uploadId.value
      && 1 <= x.part <= s.f.plan.totalParts
      && x.content == PartBytes(file, s.f.plan.partSize, x.part)
      && (x.landed ==> s.cancelled || (x.sid, x.part) in s.srv.stored)
  }

  predicate PoolOk(file: Bytes, s: State, t: Task)
    requires t.Pool? && s.f.uploadId.Some?
  {
    && (forall k :: 0 <= k < |t.queue| ==> 1 <= t.queue[k] <= s.f.plan.totalParts)
    && (forall w :: 0 <= w < |t.workers| ==> WorkerOk(file, s, t.workers[w]))
  }

  predicate TaskOk(file: Bytes, s: State, t: Task) {
    match t
    case Loading => true
    case Checking(r) => RecordOk(file, s.srv, r) && SameSession(s, r)
    case Answered(r, missing) =>
      && RecordOk(file, s.srv, r) && SameSession(s, r)
      && (s.cancelled || HeldFor(s.srv, r.sid, Kept(r.done, missing)))
    case Creating => s.f.uploadId.None? && s.saved.None?
    case Ready => s.f.uploadId.Some?
    case Pool(_, _, _, _) => s.f.uploadId.Some? && PoolOk(file, s, t)
    case Ended => true
  }

  predicate OneInitializing(tasks: seq<Task>) {
    forall i, j :: 0 <= i < j < |tasks| ==> !(Initializing(tasks[i]) && Initializing(tasks[j]))
  }

  predicate Inv(file: Bytes, s: State) {
    && ServerOk(file, s.srv)
    && FieldsOk(file, s)
    && (s.cancelled ==> s.f.paused)
    && (s.aborting != {} ==> s.cancelled)
    && (s.saved.Some? ==>
          RecordOk(file, s.srv, s.saved.value)
          && (s.f.uploadId.Some? ==> s.saved.value.sid == s.f.uploadId.value))
    && OneInitializing(s.tasks)
    && (forall i :: 0 <= i < |s.tasks| ==> TaskOk(file, s, s.tasks[i]))
    && (forall i :: 0 <= i < |s.completions| ==> Good(file, s.completions[i]))
  }

  // ---------------------------------------------------------------- a full part list assembles the file

  lemma {:induction false} NumbersSpec(n: nat)
    ensures forall p :: p in Numbers(n) <==> 1 <= p <= n
    ensures |Numbers(n)| == n
  {
    if n > 0 {
      NumbersSpec(n - 1);
    }
  }

  lemma SubsetOfSameSize(a: set<nat>, b: set<nat>)
    requires a <= b && |a| == |b|
    ensures a == b
  {
    if x :| x in b && x !in a {
      SmallerSubset(a, b - {x});
    }
  }

  lemma {:induction false} SmallerSubset(a: set<nat>, b: set<nat>)
    requires a <= b
    ensures |a| <= |b|
  {
    if a != {} {
      var x :| x in a;
      SmallerSubset(a - {x}, b - {x});
    }
  }

  lemma {:induction false} ObjectIsJoined(file: Bytes, stored: Store, sid: nat, partSize: nat, n: nat)
    requires forall p :: 1 <= p <= n ==> (sid, p) in stored && stored[(sid, p)] == PartBytes(file, partSize, p)
    ensures Object(stored, sid, n) == Joined(file, partSize, n)
  {
    if n > 0 {
      ObjectIsJoined(file, stored, sid, partSize, n - 1);
    }
  }

  /** The count check is enough: as many recorded parts as the plan has, each one held, is the whole file. */
  lemma CompletionIsGood(file: Bytes, s: State)
    requires Inv(file, s) && MayComplete(s.f)
    ensures Good(file, Completion(s.f.uploadId.value, s.f.plan, s.f.done, s.srv.stored))
  {
    var sid, n := s.f.uploadId.value, s.f.plan.totalParts;
    NumbersSpec(n);
    SubsetOfSameSize(s.f.done.Keys, Numbers(n));
    forall p | 1 <= p <= n
      ensures p in s.f.done && (sid, p) in s.srv.stored
      ensures s.srv.stored[(sid, p)] == PartBytes(file, s.f.plan.partSize, p)
      ensures s.f.done[p] == Md5(s.srv.stored[(sid, p)])
    {
      assert p in Numbers(n);
      assert p in s.f.done;
      assert (sid, p).0 == sid && (sid, p).1 == p;
    }
    ObjectIsJoined(file, s.srv.stored, sid, s.f.plan.partSize, n);
    SlicesJoinToFile(file, s.f.plan);
  }

  // ---------------------------------------------------------------- the invariant is kept

  const CAREFUL := Policy(false, false, false, false, false, false)

  /** What the other tasks rely on: the session in use stays, and its parts only disappear by cancelling. */
  predicate Extends(s: State, t: State) {
    && t.f.uploadId == s.f.uploadId && t.f.plan == s.f.plan
    && t.srv.sessions == s.srv.sessions
    && (s.cancelled ==> t.cancelled)
    && (t.cancelled || forall k :: k in s.srv.stored ==> k in t.srv.stored)
    && (t.saved.None? || t.saved == s.saved || (t.f.uploadId.Some? && t.saved.value.sid == t.f.uploadId.value))
  }

  predicate TasksOk(file: Bytes, s: State, tasks: seq<Task>) {
    forall i :: 0 <= i < |tasks| ==> TaskOk(file, s, tasks[i])
  }

  lemma TaskFrame(file: Bytes, s: State, t: State, x: Task)
    requires Extends(s, t) && TaskOk(file, s, x)
    ensures TaskOk(file, t, x)
  {
  }

  lemma TasksFrame(file: Bytes, s: State, t: State, tasks: seq<Task>)
    requires Extends(s, t) && TasksOk(file, s, tasks)
    ensures TasksOk(file, t, tasks)
  {
    forall i | 0 <= i < |tasks| ensures TaskOk(file, t, tasks[i]) {
      TaskFrame(file, s, t, tasks[i]);
    }
  }

  lemma UpdateTasks(file: Bytes, s: State, tasks: seq<Task>, i: nat, x: Task)
    requires i < |tasks| && TasksOk(file, s, tasks) && TaskOk(file, s, x)
    requires OneInitializing(tasks) && (Initializing(x) ==> Initializing(tasks[i]))
    ensures TasksOk(file, s, tasks[i := x]) && OneInitializing(tasks[i := x])
  {
  }

  lemma StartedInv(file: Bytes, s: State)
    requires Inv(file, s) && MayBegin(false, false, s)
    ensures Inv(file, Started(s))
  {
    TasksFrame(file, s, Started(s), s.tasks);
  }

  /** Pausing, losing the network, a late part reaching the store, and the steps of cancel. */
  lemma EnvironmentInv(file: Bytes, s: State, a: Action)
    requires Inv(file, s) && Enabled(file, CAREFUL, s, a)
    requires a.Pause? || a.Offline? || a.LatePut? || a.Cancel? || a.DeleteRecord?
    ensures Inv(file, Step(file, CAREFUL, s, a))
  {
    TasksFrame(file, s, Step(file, CAREFUL, s, a), s.tasks);
  }

  lemma AbortInv(file: Bytes, s: State, a: Action)
    requires Inv(file, s) && Enabled(file, CAREFUL, s, a) && a.AbortEnds?
    ensures Inv(file, Step(file, CAREFUL, s, a))
  {
    TasksFrame(file, s, Step(file, CAREFUL, s, a), s.tasks);
  }

  /** A session that the page does not use takes no part along that it relies on. */
  lemma ExpireInv(file: Bytes, s: State, a: Action)
    requires Inv(file, s) && Enabled(file, CAREFUL, s, a) && a.Expire?
    ensures Inv(file, Step(file, CAREFUL, s, a))
  {
    var t := Step(file, CAREFUL, s, a);
    forall i | 0 <= i < |s.tasks| ensures TaskOk(file, t, s.tasks[i]) {
      ExpireTask(file, s, a.sid, s.tasks[i]);
    }
  }

  lemma ExpireTask(file: Bytes, s: State, sid: nat, x: Task)
    requires TaskOk(file, s, x) && s.f.uploadId != Some(sid) && !(x.Answered? && x.saved.sid == sid)
    ensures TaskOk(file, s.(srv := Drop(s.srv, sid)), x)
  {
  }

  lemma OnlineInv(file: Bytes, s: State, a: Action)
    requires Inv(file, s) && Enabled(file, CAREFUL, s, a) && a.Online?
    ensures Inv(file, Step(file, CAREFUL, s, a))
  {
    var u := s.(f := WentOnline(s.f));
    TasksFrame(file, s, u, s.tasks);
    if ResumesOnline(s.f) {
      StartedInv(file, u);
    }
  }

  lemma LoadInv(file: Bytes, s: State, a: Action)
    requires Inv(file, s) && Enabled(file, CAREFUL, s, a) && a.Load?
    ensures Inv(file, Step(file, CAREFUL, s, a))
  {
    var t := Step(file, CAREFUL, s, a);
    TasksFrame(file, s, t, s.tasks);
    UpdateTasks(file, t, s.tasks, a.i, t.tasks[a.i]);
  }

  /** The backend answers that the saved session is alive: what it does not miss is held. */
  lemma AnsweredInv(file: Bytes, s: State, a: Action)
    requires Inv(file, s) && Enabled(file, CAREFUL, s, a) && a.StatusAlive?
    ensures Inv(file, Step(file, CAREFUL, s, a))
  {
    var t := Step(file, CAREFUL, s, a);
    assert TaskOk(file, s, s.tasks[a.i]);
    TasksFrame(file, s, t, s.tasks);
    UpdateTasks(file, t, s.tasks, a.i, t.tasks[a.i]);
  }

  /** A status answer that does not bring the saved session back, and an initialization that fails. */
  lemma LookupInv(file: Bytes, s: State, a: Action)
    requires Inv(file, s) && Enabled(file, CAREFUL, s, a) && (a.StatusFailed? || a.InitFailed?)
    ensures Inv(file, Step(file, CAREFUL, s, a))
  {
    var t := Step(file, CAREFUL, s, a);
    TasksFrame(file, s, t, s.tasks);
    UpdateTasks(file, t, s.tasks, a.i, t.tasks[a.i]);
  }

  /** The fields point at a session: unchanged if there was one, and otherwise no pool is running. */
  lemma AdoptedTasks(file: Bytes, s: State, t: State, i: nat, x: Task)
    requires Inv(file, s) && i < |s.tasks| && Initializing(s.tasks[i]) && !Initializing(x)
    requires Extends(s, t) || s.f.uploadId.None?
    requires TaskOk(file, t, x)
    ensures TasksOk(file, t, s.tasks[i := x]) && OneInitializing(s.tasks[i := x])
  {
    var tasks := s.tasks[i := x];
    forall j | 0 <= j < |tasks| ensures TaskOk(file, t, tasks[j]) {
      if j != i {
        assert TaskOk(file, s, s.tasks[j]);
        if Extends(s, t) {
          TaskFrame(file, s, t, s.tasks[j]);
        }
      }
    }
  }

  lemma AdoptedFields(file: Bytes, s: State, r: Saved, missing: set<nat>)
    requires FieldsOk(file, s) && TaskOk(file, s, Answered(r, missing))
    ensures FieldsOk(file, s.(f := WithStatus(s.f, r, missing)))
  {
  }

  lemma AdoptInv(file: Bytes, s: State, a: Action)
    requires Inv(file, s) && Enabled(file, CAREFUL, s, a) && a.Adopt?
    ensures Inv(file, Step(file, CAREFUL, s, a))
  {
    var t := Step(file, CAREFUL, s, a);
    var x := s.tasks[a.i];
    assert TaskOk(file, s, x);
    AdoptedFields(file, s, x.saved, x.missing);
    AdoptedTasks(file, s, t, a.i, Ready);
  }

  lemma CompletedInv(file: Bytes, s: State, a: Action)
    requires Inv(file, s) && Enabled(file, CAREFUL, s, a) && a.StatusCompleted?
    ensures Inv(file, Step(file, CAREFUL, s, a))
  {
    var t := Step(file, CAREFUL, s, a);
    assert TaskOk(file, s, s.tasks[a.i]);
    AdoptedTasks(file, s, t, a.i, Ended);
  }

  lemma CreatedInv(file: Bytes, s: State, a: Action)
    requires Inv(file, s) && Enabled(file, CAREFUL, s, a) && a.Created?
    ensures Inv(file, Step(file, CAREFUL, s, a))
  {
    var t := Step(file, CAREFUL, s, a);
    assert TaskOk(file, s, s.tasks[a.i]);
    AdoptedTasks(file, s, t, a.i, if a.kept then Ready else Ended);
  }

  lemma OpenPoolInv(file: Bytes, s: State, a: Action)
    requires Inv(file, s) && Enabled(file, CAREFUL, s, a) && a.OpenPool?
    ensures Inv(file, Step(file, CAREFUL, s, a))
  {
    var t := Step(file, CAREFUL, s, a);
    RemainingIsExact(s.f.done, s.f.plan.totalParts);
    var q := Remaining(s.f.done, s.f.plan.totalParts);
    assert forall k :: 0 <= k < |q| ==> q[k] in q;
    assert TaskOk(file, s, s.tasks[a.i]);
    TasksFrame(file, s, t, s.tasks);
    UpdateTasks(file, t, s.tasks, a.i, t.tasks[a.i]);
  }

  /** A worker moves on inside its pool. */
  lemma WorkerInv(file: Bytes, s: State, t: State, i: nat)
    requires Inv(file, s) && i < |s.tasks| && s.tasks[i].Pool?
    requires |t.tasks| == |s.tasks| && t.tasks == s.tasks[i := t.tasks[i]] && t.tasks[i].Pool?
    requires t.cancelled == s.cancelled && t.aborting == s.aborting && t.completions == s.completions
    requires t.f.paused == s.f.paused && (t.saved == s.saved || (t.f.uploadId.Some? && t.saved == Some(Snapshot(t.f))))
    requires Extends(s, t) && ServerOk(file, t.srv) && FieldsOk(file, t) && TaskOk(file, t, t.tasks[i])
    ensures Inv(file, t)
  {
    TasksFrame(file, s, t, s.tasks);
    UpdateTasks(file, t, s.tasks, i, t.tasks[i]);
  }

  lemma LandInv(file: Bytes, s: State, a: Action)
    requires Inv(file, s) && Enabled(file, CAREFUL, s, a) && a.Land?
    ensures Inv(file, Step(file, CAREFUL, s, a))
  {
    var t := Step(file, CAREFUL, s, a);
    var pool, x := s.tasks[a.i], s.tasks[a.i].workers[a.w];
    assert TaskOk(file, s, pool);
    assert WorkerOk(file, s, x);
    if x.sid !in s.srv.aborted {
      assert RecordOk(file, s.srv, Snapshot(s.f));
      assert ServerOk(file, t.srv);
      TaskFrame(file, s, t, pool);
      assert WorkerOk(file, t, x.(landed := true));
      assert PoolOk(file, t, t.tasks[a.i]);
      WorkerInv(file, s, t, a.i);
    }
  }

  /** An acknowledged part goes into the record: it is held, and its tag is that of the right bytes. */
  lemma RecordedPart(file: Bytes, s: State, x: Worker)
    requires ServerOk(file, s.srv) && FieldsOk(file, s) && s.f.uploadId.Some?
    requires x.Putting? && x.landed && WorkerOk(file, s, x)
    ensures var t := s.(f := WithPart(s.f, x.part, Md5(x.content))); FieldsOk(file, t) && Extends(s, t)
  {
  }

  lemma RespondInv(file: Bytes, s: State, a: Action)
    requires Inv(file, s) && Enabled(file, CAREFUL, s, a) && a.Respond?
    ensures Inv(file, Step(file, CAREFUL, s, a))
  {
    var pool, x := s.tasks[a.i], s.tasks[a.i].workers[a.w];
    assert TaskOk(file, s, pool);
    assert WorkerOk(file, s, x);
    if a.ok {
      RecordedPart(file, s, x);
      RespondOkInv(file, s, a);
    } else {
      RespondErrorInv(file, s, a);
    }
  }

  lemma PoolWithWorker(file: Bytes, s: State, pool: Task, w: nat, x: Worker, failed: bool)
    requires pool.Pool? && s.f.uploadId.Some? && PoolOk(file, s, pool) && w < |pool.workers| && WorkerOk(file, s, x)
    ensures PoolOk(file, s, pool.(workers := pool.workers[w := x], failed := failed))
  {
  }

  lemma SwapPool(file: Bytes, s: State, i: nat, pool: Task)
    requires Inv(file, s) && i < |s.tasks| && s.tasks[i].Pool? && TaskOk(file, s, pool) && pool.Pool?
    ensures Inv(file, Goto(s, i, pool))
  {
    var t := Goto(s, i, pool);
    UpdateTasks(file, s, s.tasks, i, pool);
    TasksFrame(file, s, t, t.tasks);
  }

  /** One worker of a pool changes, after the pool itself may have moved on. */
  lemma SwapWorker(file: Bytes, s: State, i: nat, pool: Task, w: nat, x: Worker, failed: bool)
    requires Inv(file, s) && i < |s.tasks| && s.tasks[i].Pool? && pool.Pool? && TaskOk(file, s, pool)
    requires w < |pool.workers| && WorkerOk(file, s, x)
    ensures var after := pool.(workers := pool.workers[w := x], failed := failed);
      Inv(file, Goto(s, i, after)) && Goto(Goto(s, i, pool), i, after) == Goto(s, i, after)
  {
    var after := pool.(workers := pool.workers[w := x], failed := failed);
    PoolWithWorker(file, s, pool, w, x, failed);
    SwapPool(file, s, i, after);
    assert s.tasks[i := pool][i := after] == s.tasks[i := after];
  }

  /** The pool of a worker that takes the next part: it starts to send it, or fails if there is no address. */
  function Taken(file: Bytes, s: State, i: nat, w: nat, hasUrl: bool): Task
    requires HasWorker(s, i, w) && s.f.uploadId.Some? && s.tasks[i].index < |s.tasks[i].queue|
    requires s.tasks[i].queue[s.tasks[i].index] >= 1
  {
    var more := s.tasks[i].(index := s.tasks[i].index + 1);
    if hasUrl then
      var part := s.tasks[i].queue[s.tasks[i].index];
      var x := Putting(s.f.uploadId.value, part, PartBytes(file, s.f.plan.partSize, part), 0, false);
      more.(workers := more.workers[w := x])
    else more.(workers := more.workers[w := Finished], failed := true)
  }

  lemma TakenIsPicked(file: Bytes, s: State, i: nat, w: nat, hasUrl: bool)
    requires HasWorker(s, i, w) && s.f.uploadId.Some? && s.tasks[i].index < |s.tasks[i].queue|
    requires s.tasks[i].queue[s.tasks[i].index] >= 1 && !s.f.paused && !s.f.offline
    ensures PickStep(file, s, i, w, hasUrl) == Goto(s, i, Taken(file, s, i, w, hasUrl))
  {
    var t := s.tasks[i];
    assert s.tasks[i := t.(index := t.index + 1)][i := Taken(file, s, i, w, hasUrl)]
      == s.tasks[i := Taken(file, s, i, w, hasUrl)];
  }

  lemma TakenOk(file: Bytes, s: State, i: nat, w: nat, hasUrl: bool)
    requires HasWorker(s, i, w) && s.f.uploadId.Some? && s.tasks[i].index < |s.tasks[i].queue|
    requires PoolOk(file, s, s.tasks[i])
    ensures s.tasks[i].queue[s.tasks[i].index] >= 1 && TaskOk(file, s, Taken(file, s, i, w, hasUrl))
  {
    var more := s.tasks[i].(index := s.tasks[i].index + 1);
    var part := s.tasks[i].queue[s.tasks[i].index];
    var x := if hasUrl then Putting(s.f.uploadId.value, part, PartBytes(file, s.f.plan.partSize, part), 0, false)
             else Finished;
    PoolWithWorker(file, s, more, w, x, more.failed || !hasUrl);
  }

  lemma PickInv(file: Bytes, s: State, a: Action)
    requires Inv(file, s) && Enabled(file, CAREFUL, s, a) && a.Pick?
    ensures Inv(file, Step(file, CAREFUL, s, a))
  {
    var pool := s.tasks[a.i];
    assert TaskOk(file, s, pool);
    if pool.index < |pool.queue| && !s.f.paused && !s.f.offline {
      TakenOk(file, s, a.i, a.w, a.hasUrl);
      TakenIsPicked(file, s, a.i, a.w, a.hasUrl);
      SwapPool(file, s, a.i, Taken(file, s, a.i, a.w, a.hasUrl));
    } else {
      SwapWorker(file, s, a.i, pool, a.w, Finished, pool.failed);
    }
  }

  lemma SetWorkerInv(file: Bytes, s: State, i: nat, w: nat, x: Worker)
    requires Inv(file, s) && HasWorker(s, i, w) && TaskOk(file, s, s.tasks[i]) && WorkerOk(file, s, x)
    ensures Inv(file, SetWorker(s, i, w, x))
  {
    SwapWorker(file, s, i, s.tasks[i], w, x, s.tasks[i].failed);
  }

  lemma SendingOk(file: Bytes, s: State, i: nat, w: nat)
    requires Inv(file, s) && HasWorker(s, i, w) && s.tasks[i].workers[w].Putting?
    ensures TaskOk(file, s, s.tasks[i]) && WorkerOk(file, s, s.tasks[i].workers[w])
    ensures forall n: nat :: WorkerOk(file, s, s.tasks[i].workers[w].(attempt := n, landed := false))
  {
    assert TaskOk(file, s, s.tasks[i]);
  }

  lemma RetryInv(file: Bytes, s: State, i: nat, w: nat)
    requires Inv(file, s) && HasWorker(s, i, w) && s.tasks[i].workers[w].Putting?
    ensures var x := s.tasks[i].workers[w];
      Inv(file, SetWorker(s, i, w, x.(attempt := x.attempt + 1, landed := false)))
  {
    var x := s.tasks[i].workers[w];
    SendingOk(file, s, i, w);
    SetWorkerInv(file, s, i, w, x.(attempt := x.attempt + 1, landed := false));
  }

  lemma FailInv(file: Bytes, s: State, i: nat, w: nat)
    requires Inv(file, s) && HasWorker(s, i, w)
    ensures Inv(file, FailWorker(s, i, w))
  {
    assert TaskOk(file, s, s.tasks[i]);
    SwapWorker(file, s, i, s.tasks[i], w, Finished, true);
  }

  lemma ErrorStepInv(file: Bytes, s: State, i: nat, w: nat)
    requires Inv(file, s) && HasWorker(s, i, w) && s.tasks[i].workers[w].Putting?
    ensures Inv(file, RespondStep(s, i, w, false))
  {
    if s.tasks[i].workers[w].attempt + 1 < MAX_RETRIES {
      RetryInv(file, s, i, w);
    } else {
      FailInv(file, s, i, w);
    }
  }

  lemma RespondErrorInv(file: Bytes, s: State, a: Action)
    requires Inv(file, s) && Enabled(file, CAREFUL, s, a) && a.Respond? && !a.ok
    ensures Inv(file, Step(file, CAREFUL, s, a))
  {
    ErrorStepInv(file, s, a.i, a.w);
  }

  lemma RespondOkInv(file: Bytes, s: State, a: Action)
    requires Inv(file, s) && Enabled(file, CAREFUL, s, a) && a.Respond? && a.ok && s.f.uploadId.Some?
    requires var x := s.tasks[a.i].workers[a.w];
      var u := s.(f := WithPart(s.f, x.part, Md5(x.content))); FieldsOk(file, u) && Extends(s, u)
    ensures Inv(file, Step(file, CAREFUL, s, a))
  {
    var t := Step(file, CAREFUL, s, a);
    assert Extends(s, t);
    assert TaskOk(file, s, s.tasks[a.i]);
    TaskFrame(file, s, t, s.tasks[a.i]);
    assert PoolOk(file, t, t.tasks[a.i]);
    WorkerInv(file, s, t, a.i);
  }

  lemma SaveFailedInv(file: Bytes, s: State, a: Action)
    requires Inv(file, s) && Enabled(file, CAREFUL, s, a) && a.SaveFailed?
    ensures Inv(file, Step(file, CAREFUL, s, a))
  {
    var pool, x := s.tasks[a.i], s.tasks[a.i].workers[a.w];
    assert TaskOk(file, s, pool);
    assert WorkerOk(file, s, x);
    RecordedPart(file, s, x);
    var t := s.(f := WithPart(s.f, x.part, Md5(x.content)));
    TasksFrame(file, s, t, s.tasks);
    ErrorStepInv(file, t, a.i, a.w);
  }

  lemma LeaveInv(file: Bytes, s: State, a: Action)
    requires Inv(file, s) && Enabled(file, CAREFUL, s, a) && a.Leave?
    ensures Inv(file, Step(file, CAREFUL, s, a))
  {
    var pool := s.tasks[a.i];
    assert TaskOk(file, s, pool);
    SwapWorker(file, s, a.i, pool, a.w, Idle, pool.failed);
  }

  /** Ending a pool's task and recording a completion that is good keep the invariant. */
  lemma EndInv(file: Bytes, s: State, t: State, i: nat)
    requires Inv(file, s) && i < |s.tasks| && t.tasks == s.tasks[i := Ended]
    requires t.f == s.f && t.srv == s.srv && t.cancelled == s.cancelled && t.aborting == s.aborting
    requires t.saved == s.saved || t.saved == None
    requires t.completions == s.completions
             || (|t.completions| > 0 && t.completions[..|t.completions| - 1] == s.completions
                 && Good(file, t.completions[|t.completions| - 1]))
    ensures Inv(file, t)
  {
    TasksFrame(file, s, t, s.tasks);
    UpdateTasks(file, t, s.tasks, i, Ended);
    CompletionsStayGood(file, s.completions, t.completions);
  }

  lemma CompletionsStayGood(file: Bytes, cs: seq<Completion>, ds: seq<Completion>)
    requires forall k :: 0 <= k < |cs| ==> Good(file, cs[k])
    requires ds == cs || (|ds| > 0 && ds[..|ds| - 1] == cs && Good(file, ds[|ds| - 1]))
    ensures forall k :: 0 <= k < |ds| ==> Good(file, ds[k])
  {
    forall k | 0 <= k < |ds| ensures Good(file, ds[k]) {
      assert k < |cs| ==> ds[k] == cs[k];
    }
  }

  lemma JoinInv(file: Bytes, s: State, a: Action)
    requires Inv(file, s) && Enabled(file, CAREFUL, s, a) && a.Join?
    ensures Inv(file, Step(file, CAREFUL, s, a))
  {
    if MayComplete(s.f) {
      CompletionIsGood(file, s);
    }
    EndInv(file, s, Step(file, CAREFUL, s, a), a.i);
  }

  lemma ReloadInv(file: Bytes, s: State, a: Action)
    requires Inv(file, s) && Enabled(file, CAREFUL, s, a) && a.Reload?
    ensures Inv(file, Step(file, CAREFUL, s, a))
  {
  }

  lemma WorkerStepInv(file: Bytes, s: State, a: Action)
    requires Inv(file, s) && Enabled(file, CAREFUL, s, a)
    requires a.OpenPool? || a.Pick? || a.Land? || a.Respond? || a.SaveFailed? || a.Leave? || a.Join?
    ensures Inv(file, Step(file, CAREFUL, s, a))
  {
    if a.OpenPool? {
      OpenPoolInv(file, s, a);
    } else if a.Pick? {
      PickInv(file, s, a);
    } else if a.Land? {
      LandInv(file, s, a);
    } else if a.Respond? {
      RespondInv(file, s, a);
    } else if a.SaveFailed? {
      SaveFailedInv(file, s, a);
    } else if a.Leave? {
      LeaveInv(file, s, a);
    } else {
      JoinInv(file, s, a);
    }
  }

  lemma InitStepInv(file: Bytes, s: State, a: Action)
    requires Inv(file, s) && Enabled(file, CAREFUL, s, a)
    requires a.Load? || a.StatusFailed? || a.InitFailed? || a.StatusAlive? || a.Adopt? || a.StatusCompleted?
             || a.Created?
    ensures Inv(file, Step(file, CAREFUL, s, a))
  {
    if a.Created? {
      CreatedInv(file, s, a);
    } else if a.StatusAlive? {
      AnsweredInv(file, s, a);
    } else if a.Adopt? {
      AdoptInv(file, s, a);
    } else if a.StatusCompleted? {
      CompletedInv(file, s, a);
    } else if a.Load? {
      LoadInv(file, s, a);
    } else {
      LookupInv(file, s, a);
    }
  }

  lemma StepInv(file: Bytes, s: State, a: Action)
    requires Inv(file, s) && Enabled(file, CAREFUL, s, a)
    ensures Inv(file, Step(file, CAREFUL, s, a))
  {
    if a.Start? {
      StartedInv(file, s);
    } else if a.Online? {
      OnlineInv(file, s, a);
    } else if a.Reload? {
      ReloadInv(file, s, a);
    } else if a.AbortEnds? {
      AbortInv(file, s, a);
    } else if a.Expire? {
      ExpireInv(file, s, a);
    } else if a.Pause? || a.Offline? || a.LatePut? || a.Cancel? || a.DeleteRecord? {
      EnvironmentInv(file, s, a);
    } else if a.OpenPool? || a.Pick? || a.Land? || a.Respond? || a.SaveFailed? || a.Leave? || a.Join? {
      WorkerStepInv(file, s, a);
    } else {
      InitStepInv(file, s, a);
    }
  }

  lemma {:induction false} RunsKeepInv(file: Bytes, s: State, acts: seq<Action>)
    requires Inv(file, s) && CanRun(file, CAREFUL, s, acts)
    ensures Inv(file, Run(file, CAREFUL, s, acts))
    decreases |acts|
  {
    if acts != [] {
      StepInv(file, s, acts[0]);
      RunsKeepInv(file, Step(file, CAREFUL, s, acts[0]), acts[1..]);
    }
  }

  // ---------------------------------------------------------------- what a run issues

  /** A completion is issued exactly when a pool has ended and the upload is running with as many recorded parts as
      its plan has, and it presents those. The record goes when the backend accepts it. */
  lemma CompletesWhenDue(file: Bytes, policy: Policy, s: State, a: Action)
    requires Enabled(file, policy, s, a)
    ensures var t := Step(file, policy, s, a);
      if a.Join? && !s.f.paused && !s.f.offline && |s.f.done| == s.f.plan.totalParts && s.f.uploadId.Some? then
        && t.completions == s.completions + [Completion(s.f.uploadId.value, s.f.plan, s.f.done, s.srv.stored)]
        && t.saved == (if a.completed then None else s.saved)
      else t.completions == s.completions && (a.Join? ==> t.saved == s.saved)
  {
  }

  /** The backend is asked about a saved session exactly if its record has not expired, and a record that has is
      dropped. */
  lemma AsksAboutUnexpired(file: Bytes, policy: Policy, s: State, i: nat, expired: bool)
    requires Enabled(file, policy, s, Load(i, expired))
    ensures var t := Step(file, policy, s, Load(i, expired));
      && (t.tasks[i].Checking? <==> s.saved.Some? && !expired)
      && (t.tasks[i].Checking? ==> t.tasks[i].saved == s.saved.value && t.saved == s.saved)
      && (expired ==> t.saved == None)
  {
  }

  /** No pool has more than four workers, and no worker is past its fifth attempt. */
  predicate Modest(s: State) {
    forall i :: 0 <= i < |s.tasks| && s.tasks[i].Pool? ==> ModestPool(s.tasks[i].workers)
  }

  predicate ModestPool(workers: seq<Worker>) {
    |workers| <= 4 && forall w :: 0 <= w < |workers| && workers[w].Putting? ==> workers[w].attempt < 5
  }

  lemma GotoModest(s: State, i: nat, t: Task)
    requires Modest(s) && i < |s.tasks| && (t.Pool? ==> ModestPool(t.workers))
    ensures Modest(Goto(s, i, t))
  {
  }

  lemma SetWorkerModest(s: State, i: nat, w: nat, x: Worker)
    requires Modest(s) && HasWorker(s, i, w) && (x.Putting? ==> x.attempt < 5)
    ensures Modest(SetWorker(s, i, w, x)) && (x.Finished? ==> Modest(FailWorker(s, i, w)))
  {
    assert ModestPool(s.tasks[i].workers);
    GotoModest(s, i, s.tasks[i].(workers := s.tasks[i].workers[w := x]));
    GotoModest(s, i, s.tasks[i].(workers := s.tasks[i].workers[w := Finished], failed := true));
  }

  lemma PickModest(file: Bytes, s: State, i: nat, w: nat, hasUrl: bool)
    requires Modest(s) && HasWorker(s, i, w)
    ensures Modest(PickStep(file, s, i, w, hasUrl))
  {
    var t := s.tasks[i];
    var taken := Goto(s, i, t.(index := t.index + 1));
    GotoModest(s, i, t.(index := t.index + 1));
    SetWorkerModest(s, i, w, Finished);
    SetWorkerModest(taken, i, w, Finished);
    if t.index < |t.queue| && s.f.uploadId.Some? && t.queue[t.index] >= 1 {
      var part := t.queue[t.index];
      SetWorkerModest(
        taken, i, w, Putting(s.f.uploadId.value, part, PartBytes(file, s.f.plan.partSize, part), 0, false));
    }
  }

  lemma RespondModest(s: State, i: nat, w: nat, ok: bool)
    requires Modest(s) && HasWorker(s, i, w) && s.tasks[i].workers[w].Putting?
    ensures Modest(RespondStep(s, i, w, ok))
  {
    var x := s.tasks[i].workers[w];
    SetWorkerModest(s, i, w, Finished);
    if ok {
      var f := WithPart(s.f, x.part, Md5(x.content));
      SetWorkerModest(s.(f := f, saved := if f.uploadId.Some? then Some(Snapshot(f)) else s.saved), i, w, Idle);
    } else if x.attempt + 1 < MAX_RETRIES {
      SetWorkerModest(s, i, w, x.(attempt := x.attempt + 1, landed := false));
    }
  }

  lemma LandModest(file: Bytes, policy: Policy, s: State, a: Action)
    requires Modest(s) && Enabled(file, policy, s, a) && (a.Land? || a.Leave?)
    ensures Modest(Step(file, policy, s, a))
  {
    var x := s.tasks[a.i].workers[a.w];
    if a.Leave? {
      SetWorkerModest(s, a.i, a.w, Idle);
    } else {
      assert ModestPool(s.tasks[a.i].workers);
      var t := s.(srv := s.srv.(stored := s.srv.stored[(x.sid, x.part) := x.content]));
      SetWorkerModest(t, a.i, a.w, x.(landed := true));
    }
  }

  /** The steps that do not touch the workers of a pool. */
  lemma OtherModest(file: Bytes, policy: Policy, s: State, a: Action)
    requires Modest(s) && Enabled(file, policy, s, a)
    requires !a.Pick? && !a.Land? && !a.Respond? && !a.SaveFailed? && !a.Leave?
    ensures Modest(Step(file, policy, s, a))
  {
    var t := Step(file, policy, s, a);
    forall i | 0 <= i < |t.tasks| && t.tasks[i].Pool? ensures ModestPool(t.tasks[i].workers) {
      assert i < |s.tasks| && s.tasks[i].Pool? ==> ModestPool(s.tasks[i].workers);
    }
  }

  lemma StepModest(file: Bytes, policy: Policy, s: State, a: Action)
    requires Modest(s) && Enabled(file, policy, s, a)
    ensures Modest(Step(file, policy, s, a))
  {
    match a
    case Pick(i, w, hasUrl) => PickModest(file, s, i, w, hasUrl);
    case Respond(i, w, ok) => RespondModest(s, i, w, ok);
    case SaveFailed(i, w) =>
      var x := s.tasks[i].workers[w];
      RespondModest(s.(f := WithPart(s.f, x.part, Md5(x.content))), i, w, false);
    case Land(_, _) => LandModest(file, policy, s, a);
    case Leave(_, _) => LandModest(file, policy, s, a);
    case _ => OtherModest(file, policy, s, a);
  }

  lemma {:induction false} RunsAreModest(file: Bytes, policy: Policy, s: State, acts: seq<Action>)
    requires Modest(s) && CanRun(file, policy, s, acts)
    ensures Modest(Run(file, policy, s, acts))
    decreases |acts|
  {
    if acts != [] {
      StepModest(file, policy, s, acts[0]);
      RunsAreModest(file, policy, Step(file, policy, s, acts[0]), acts[1..]);
    }
  }

  // ---------------------------------------------------------------- exactly which callers are safe

  predicate AllGood(file: Bytes, s: State) {
    forall i :: 0 <= i < |s.completions| ==> Good(file, s.completions[i])
  }

  ghost predicate SafeRuns(file: Bytes, policy: Policy) {
    forall acts :: CanRun(file, policy, INITIAL, acts) ==> AllGood(file, Run(file, policy, INITIAL, acts))
  }

  ghost predicate Reaches(file: Bytes, policy: Policy, s: State) {
    exists acts :: CanRun(file, policy, INITIAL, acts) && Run(file, policy, INITIAL, acts) == s
  }

  lemma {:induction false} RunSnoc(file: Bytes, policy: Policy, s: State, acts: seq<Action>, a: Action)
    requires CanRun(file, policy, s, acts) && Enabled(file, policy, Run(file, policy, s, acts), a)
    ensures CanRun(file, policy, s, acts + [a])
    ensures Run(file, policy, s, acts + [a]) == Step(file, policy, Run(file, policy, s, acts), a)
    decreases |acts|
  {
    if acts == [] {
      assert [] + [a] == [a] && [a][1..] == [];
    } else {
      assert (acts + [a])[1..] == acts[1..] + [a];
      RunSnoc(file, policy, Step(file, policy, s, acts[0]), acts[1..], a);
    }
  }

  lemma RunThen(file: Bytes, policy: Policy, s: State, a: Action, rest: seq<Action>)
    requires Enabled(file, policy, s, a) && CanRun(file, policy, Step(file, policy, s, a), rest)
    ensures CanRun(file, policy, s, [a] + rest)
    ensures Run(file, policy, s, [a] + rest) == Run(file, policy, Step(file, policy, s, a), rest)
  {
    assert ([a] + rest)[1..] == rest;
  }

  lemma ReachStep(file: Bytes, policy: Policy, s: State, a: Action)
    requires Reaches(file, policy, s) && Enabled(file, policy, s, a)
    ensures Reaches(file, policy, Step(file, policy, s, a))
  {
    var acts :| CanRun(file, policy, INITIAL, acts) && Run(file, policy, INITIAL, acts) == s;
    RunSnoc(file, policy, INITIAL, acts, a);
  }

  function OnePart(file: Bytes): Plan { Plan(1, |file|) }

  function OneDone(file: Bytes): Parts { map[1 := Md5(PartBytes(file, |file|, 1))] }

  /** The one worker of the pool, sending the only part. */
  function SendingOnly(file: Bytes, landed: bool): Task {
    Pool([1], 1, [Putting(0, 1, PartBytes(file, |file|, 1), 0, landed)], false)
  }

  /** The pool opens. */
  lemma OpenOnlyPart(file: Bytes, policy: Policy, s: State) returns (t: State)
    requires Reaches(file, policy, s) && s.tasks != [] && s.tasks[0] == Ready
    requires s.f == FRESH.(uploadId := Some(0), plan := OnePart(file))
    ensures Reaches(file, policy, t)
    ensures t == s.(f := s.f.(armed := true), tasks := s.tasks[0 := Pool([1], 0, [Idle], false)])
  {
    assert Remaining(map[], 1) == Remaining(map[], 0) + [1] == [1];
    t := Step(file, policy, s, OpenPool(0));
    ReachStep(file, policy, s, OpenPool(0));
    assert t.tasks[0] == Pool([1], 0, [Idle], false);
  }

  /** Its worker takes the only part. */
  lemma TakeOnlyPart(file: Bytes, policy: Policy, s: State) returns (t: State)
    requires Reaches(file, policy, s) && s.tasks != [] && s.tasks[0] == Pool([1], 0, [Idle], false)
    requires s.f == FRESH.(uploadId := Some(0), plan := OnePart(file), armed := true)
    ensures Reaches(file, policy, t)
    ensures t == s.(tasks := s.tasks[0 := SendingOnly(file, false)])
  {
    t := Step(file, policy, s, Pick(0, 0, true));
    ReachStep(file, policy, s, Pick(0, 0, true));
    assert t.tasks[0] == SendingOnly(file, false);
    assert t.tasks == s.tasks[0 := t.tasks[0]];
  }

  /** The part lands. */
  lemma LandOnlyPart(file: Bytes, policy: Policy, s: State) returns (t: State)
    requires Reaches(file, policy, s) && s.tasks != [] && s.tasks[0] == SendingOnly(file, false)
    requires s.srv.aborted == {}
    ensures Reaches(file, policy, t)
    ensures t == s.(tasks := s.tasks[0 := SendingOnly(file, true)],
                    srv := s.srv.(stored := s.srv.stored[(0, 1) := PartBytes(file, |file|, 1)]))
  {
    t := Step(file, policy, s, Land(0, 0));
    ReachStep(file, policy, s, Land(0, 0));
    assert t.tasks[0] == SendingOnly(file, true);
  }

  /** Its reply arrives. */
  lemma RecordOnlyPart(file: Bytes, policy: Policy, s: State) returns (t: State)
    requires Reaches(file, policy, s) && s.tasks != [] && s.tasks[0] == SendingOnly(file, true)
    requires s.f == FRESH.(uploadId := Some(0), plan := OnePart(file), armed := true)
    ensures Reaches(file, policy, t)
    ensures t == s.(f := s.f.(done := OneDone(file)),
                    tasks := s.tasks[0 := Pool([1], 1, [Idle], false)],
                    saved := Some(Saved(0, OnePart(file), OneDone(file))))
  {
    t := Step(file, policy, s, Respond(0, 0, true));
    ReachStep(file, policy, s, Respond(0, 0, true));
    assert t.tasks[0] == Pool([1], 1, [Idle], false);
    assert t.tasks == s.tasks[0 := Pool([1], 1, [Idle], false)];
  }

  /** A start that got its session uploads the only part. */
  lemma UploadOnlyPart(file: Bytes, policy: Policy, s: State) returns (t: State)
    requires Reaches(file, policy, s) && s.tasks != [] && s.tasks[0] == Ready
    requires s.f == FRESH.(uploadId := Some(0), plan := OnePart(file)) && s.srv.aborted == {}
    ensures Reaches(file, policy, t)
    ensures t == s.(f := s.f.(done := OneDone(file), armed := true),
                    tasks := s.tasks[0 := Pool([1], 1, [Idle], false)],
                    saved := Some(Saved(0, OnePart(file), OneDone(file))),
                    srv := s.srv.(stored := s.srv.stored[(0, 1) := PartBytes(file, |file|, 1)]))
  {
    var ready := OpenOnlyPart(file, policy, s);
    var taken := TakeOnlyPart(file, policy, ready);
    var landed := LandOnlyPart(file, policy, taken);
    t := RecordOnlyPart(file, policy, landed);
    assert t.tasks == s.tasks[0 := Pool([1], 1, [Idle], false)];
  }

  /** A start that finds every part recorded completes at once. */
  lemma CompletesAtOnce(file: Bytes, policy: Policy, s: State, i: nat)
    requires Reaches(file, policy, s) && i < |s.tasks| && s.tasks[i] == Ready
    requires MayComplete(s.f) && s.f.plan == OnePart(file) && s.f.done == OneDone(file)
    requires s.completions == [] && (s.f.uploadId.value, 1) !in s.srv.stored
    ensures !SafeRuns(file, policy)
  {
    assert Remaining(OneDone(file), 1) == Remaining(OneDone(file), 0) + [] == [];
    var s1 := Step(file, policy, s, OpenPool(i));
    ReachStep(file, policy, s, OpenPool(i));
    assert s1.tasks[i] == Pool([], 0, [], false);
    var s2 := Step(file, policy, s1, Join(i, true));
    ReachStep(file, policy, s1, Join(i, true));
    assert !Good(file, s2.completions[0]);
    assert !AllGood(file, s2);
  }

  /** Two starts that are both about to create a session. */
  function Overlapping(): State {
    INITIAL.(tasks := [Creating, Creating])
  }

  lemma FirstLookup(file: Bytes, policy: Policy)
    ensures Reaches(file, policy, INITIAL.(tasks := [Creating]))
  {
    assert CanRun(file, policy, INITIAL, []);
    assert Reaches(file, policy, INITIAL);
    var s1 := Step(file, policy, INITIAL, Start);
    ReachStep(file, policy, INITIAL, Start);
    var s2 := Step(file, policy, s1, Load(0, false));
    ReachStep(file, policy, s1, Load(0, false));
    assert s2.tasks == [Creating];
  }

  lemma SecondLookup(file: Bytes, policy: Policy)
    requires Reaches(file, policy, INITIAL.(tasks := [Creating, Loading]))
    ensures Reaches(file, policy, Overlapping())
  {
    var s := INITIAL.(tasks := [Creating, Loading]);
    ReachStep(file, policy, s, Load(1, false));
    assert Step(file, policy, s, Load(1, false)).tasks == [Creating, Creating];
  }

  /** The page calls start again before the first start has its session. */
  lemma StartOverlaps(file: Bytes, policy: Policy)
    requires policy.startDuringInit
    ensures Reaches(file, policy, Overlapping())
  {
    FirstLookup(file, policy);
    var s := INITIAL.(tasks := [Creating]);
    ReachStep(file, policy, s, Start);
    assert Step(file, policy, s, Start).tasks == [Creating, Loading];
    SecondLookup(file, policy);
  }

  /** The network goes away and comes back before the first start has its session. */
  lemma OnlineOverlaps(file: Bytes, policy: Policy)
    requires policy.onlineDuringInit
    ensures Reaches(file, policy, Overlapping())
  {
    FirstLookup(file, policy);
    var s := INITIAL.(tasks := [Creating]);
    var s1 := Step(file, policy, s, Offline);
    ReachStep(file, policy, s, Offline);
    ReachStep(file, policy, s1, Online);
    assert Step(file, policy, s1, Online).tasks == [Creating, Loading];
    SecondLookup(file, policy);
  }

  /** Each of the two starts creates a session, and parts sent to the first are presented to the second. */
  lemma OverlapBreaks(file: Bytes, policy: Policy)
    requires Reaches(file, policy, Overlapping())
    ensures !SafeRuns(file, policy)
  {
    var s4 := Overlapping();
    var s5 := Step(file, policy, s4, Created(0, 0, OnePart(file), true));
    ReachStep(file, policy, s4, Created(0, 0, OnePart(file), true));
    var s6 := UploadOnlyPart(file, policy, s5);
    assert s6.tasks[1] == Creating;
    var s7 := Step(file, policy, s6, Created(1, 1, OnePart(file), true));
    ReachStep(file, policy, s6, Created(1, 1, OnePart(file), true));
    assert |s7.f.done| == 1;
    CompletesAtOnce(file, policy, s7, 1);
  }

  function OneSaved(file: Bytes): Saved { Saved(0, OnePart(file), OneDone(file)) }

  /** One start, one session, its only part uploaded. */
  function Uploaded(file: Bytes): State {
    INITIAL.(f := FRESH.(uploadId := Some(0), plan := OnePart(file), done := OneDone(file), armed := true),
             tasks := [Pool([1], 1, [Idle], false)],
             saved := Some(OneSaved(file)),
             srv := Server(map[0 := OnePart(file)], map[(0, 1) := PartBytes(file, |file|, 1)], {}))
  }

  lemma FirstUpload(file: Bytes, policy: Policy)
    ensures Reaches(file, policy, Uploaded(file))
  {
    FirstLookup(file, policy);
    var s := INITIAL.(tasks := [Creating]);
    var s1 := Step(file, policy, s, Created(0, 0, OnePart(file), true));
    ReachStep(file, policy, s, Created(0, 0, OnePart(file), true));
    var t := UploadOnlyPart(file, policy, s1);
    assert t.tasks == [Pool([1], 1, [Idle], false)];
    assert t == Uploaded(file);
  }

  /** A cancel that has run its course: the session is aborted and its record deleted. */
  function Cancelled(file: Bytes): State {
    var s := Uploaded(file);
    s.(f := Paused(s.f), cancelled := true, saved := None, srv := Server(s.srv.sessions, map[], {0}))
  }

  lemma FirstCancel(file: Bytes, policy: Policy)
    ensures Reaches(file, policy, Cancelled(file))
  {
    FirstUpload(file, policy);
    var s := Uploaded(file);
    var s1 := Step(file, policy, s, Cancel);
    ReachStep(file, policy, s, Cancel);
    assert s1.aborting == {0};
    var s2 := Step(file, policy, s1, AbortEnds(0, true));
    ReachStep(file, policy, s1, AbortEnds(0, true));
    assert s2.srv.stored == map[] && s2.aborting == {};
    ReachStep(file, policy, s2, DeleteRecord);
    assert Step(file, policy, s2, DeleteRecord) == Cancelled(file);
  }

  /** Cancelled and started again. */
  function Restarted(file: Bytes): State {
    var s := Cancelled(file);
    s.(f := Resumed(s.f), tasks := s.tasks + [Loading])
  }

  /** The page calls start after cancel. */
  lemma StartRestarts(file: Bytes, policy: Policy)
    requires policy.startAfterCancel
    ensures Reaches(file, policy, Restarted(file))
  {
    FirstCancel(file, policy);
    ReachStep(file, policy, Cancelled(file), Start);
  }

  /** The network goes away and comes back after cancel. */
  lemma OnlineRestarts(file: Bytes, policy: Policy)
    requires policy.onlineAfterCancel
    ensures Reaches(file, policy, Restarted(file))
  {
    FirstCancel(file, policy);
    var s1 := Step(file, policy, Cancelled(file), Offline);
    ReachStep(file, policy, Cancelled(file), Offline);
    ReachStep(file, policy, s1, Online);
    assert Step(file, policy, s1, Online) == Restarted(file);
  }

  /** A start after cancel keeps the aborted session and the parts recorded for it. */
  lemma RestartBreaks(file: Bytes, policy: Policy)
    requires Reaches(file, policy, Restarted(file))
    ensures !SafeRuns(file, policy)
  {
    var s6 := Restarted(file);
    assert s6.tasks == [Pool([1], 1, [Idle], false), Loading];
    var s7 := Step(file, policy, s6, Load(1, false));
    ReachStep(file, policy, s6, Load(1, false));
    assert |s7.f.done| == 1;
    CompletesAtOnce(file, policy, s7, 1);
  }

  /** The next page takes over the session that is being aborted. */
  function TakingOver(file: Bytes): State {
    Uploaded(file).(f := FRESH, tasks := [], aborting := {0})
  }

  lemma TakeOver(file: Bytes, policy: Policy)
    requires Reaches(file, policy, TakingOver(file))
    ensures Reaches(file, policy, TakingOver(file).(tasks := [Checking(OneSaved(file))]))
  {
    var s := TakingOver(file);
    var s1 := Step(file, policy, s, Start);
    ReachStep(file, policy, s, Start);
    ReachStep(file, policy, s1, Load(0, false));
    assert Step(file, policy, s1, Load(0, false)).tasks == [Checking(OneSaved(file))];
  }

  function TakenOver(file: Bytes): State {
    TakingOver(file).(f := WithStatus(FRESH, OneSaved(file), {}), tasks := [Ready])
  }

  lemma TakenOverFields(file: Bytes)
    ensures TakenOver(file).f == FRESH.(uploadId := Some(0), plan := OnePart(file), done := OneDone(file))
    ensures MayComplete(TakenOver(file).f)
  {
    assert map[] + Kept(OneDone(file), {}) == OneDone(file);
    assert |OneDone(file)| == 1;
  }

  /** Its parts are all held when it asks, and then the abort arrives. */
  lemma LateAbort(file: Bytes, policy: Policy)
    requires Reaches(file, policy, TakingOver(file).(tasks := [Checking(OneSaved(file))]))
    ensures !SafeRuns(file, policy)
  {
    var s := TakingOver(file).(tasks := [Checking(OneSaved(file))]);
    assert Truthful(s.srv, OneSaved(file), {});
    var s1 := Step(file, policy, s, StatusAlive(0, {}));
    ReachStep(file, policy, s, StatusAlive(0, {}));
    assert s1.tasks == [Answered(OneSaved(file), {})];
    ReachStep(file, policy, s1, Adopt(0));
    assert Step(file, policy, s1, Adopt(0)).tasks == [Ready];
    assert Reaches(file, policy, TakenOver(file));
    AbortArrives(file, policy);
  }

  lemma AbortArrives(file: Bytes, policy: Policy)
    requires Reaches(file, policy, TakenOver(file))
    ensures !SafeRuns(file, policy)
  {
    TakenOverFields(file);
    var s := TakenOver(file);
    ReachStep(file, policy, s, AbortEnds(0, true));
    CompletesAtOnce(file, policy, Step(file, policy, s, AbortEnds(0, true)), 0);
  }

  /** The page is left while the abort is on its way. */
  lemma LeavingBreaks(file: Bytes, policy: Policy)
    requires policy.leaveDuringCancel
    ensures !SafeRuns(file, policy)
  {
    FirstUpload(file, policy);
    var s := Uploaded(file);
    var s1 := Step(file, policy, s, Cancel);
    ReachStep(file, policy, s, Cancel);
    ReachStep(file, policy, s1, Reload(true));
    assert Step(file, policy, s1, Reload(true)) == TakingOver(file);
    TakeOver(file, policy);
    LateAbort(file, policy);
  }

  /** A paused upload whose session has expired at the backend. */
  function Expired(file: Bytes): State {
    var s := Uploaded(file);
    s.(f := Paused(s.f), tasks := [Pool([1], 1, [Finished], false)], srv := Server(s.srv.sessions, map[], {0}))
  }

  lemma PausedExpires(file: Bytes, policy: Policy)
    requires policy.expireInUse
    ensures Reaches(file, policy, Expired(file))
  {
    FirstUpload(file, policy);
    var s := Uploaded(file);
    var s1 := Step(file, policy, s, Pause);
    ReachStep(file, policy, s, Pause);
    assert s1.tasks[0] == Pool([1], 1, [Idle], false);
    var s2 := Step(file, policy, s1, Pick(0, 0, true));
    ReachStep(file, policy, s1, Pick(0, 0, true));
    assert s2.tasks[0] == Pool([1], 1, [Finished], false);
    ReachStep(file, policy, s2, Expire(0));
    assert Drop(s2.srv, 0).stored == map[];
  }

  /** The upload is started again and is told that its part is missing. It keeps the tag recorded for it, as a
      status answer only adds parts, and completes. */
  lemma ExpiryBreaks(file: Bytes, policy: Policy)
    requires policy.expireInUse
    ensures !SafeRuns(file, policy)
  {
    PausedExpires(file, policy);
    var s := Expired(file);
    var s1 := Step(file, policy, s, Start);
    ReachStep(file, policy, s, Start);
    assert s1.tasks == [Pool([1], 1, [Finished], false), Loading];
    var s2 := Step(file, policy, s1, Load(1, false));
    ReachStep(file, policy, s1, Load(1, false));
    assert s2.tasks[1] == Checking(OneSaved(file));
    var s3 := Step(file, policy, s2, StatusAlive(1, {1}));
    ReachStep(file, policy, s2, StatusAlive(1, {1}));
    assert s3.tasks[1] == Answered(OneSaved(file), {1});
    KeepsRecorded(file, policy, s3, 1);
  }

  lemma KeepsRecorded(file: Bytes, policy: Policy, s: State, i: nat)
    requires Reaches(file, policy, s) && i < |s.tasks| && s.tasks[i] == Answered(OneSaved(file), {1})
    requires s.f == Resumed(Expired(file).f) && s.srv.stored == map[] && s.completions == []
    ensures !SafeRuns(file, policy)
  {
    assert OneDone(file) + Kept(OneDone(file), {1}) == OneDone(file);
    var t := Step(file, policy, s, Adopt(i));
    ReachStep(file, policy, s, Adopt(i));
    assert t.f == s.f && |t.f.done| == 1;
    CompletesAtOnce(file, policy, t, i);
  }

  /** In every run, each completion lists exactly the parts 1..totalParts, all of them held, and they assemble to
      the file: if and only if, while a start is still initializing and after cancel, the page does not call start
      and the network does not come back, no new uploader takes over while an abort is on its way, and no session
      expires that the page is using. */
  lemma SafeIffCareful(file: Bytes, policy: Policy)
    ensures SafeRuns(file, policy) <==>
      && !policy.startDuringInit && !policy.startAfterCancel
      && !policy.onlineDuringInit && !policy.onlineAfterCancel
      && !policy.leaveDuringCancel && !policy.expireInUse
  {
    if policy.startDuringInit {
      StartOverlaps(file, policy);
      OverlapBreaks(file, policy);
    } else if policy.onlineDuringInit {
      OnlineOverlaps(file, policy);
      OverlapBreaks(file, policy);
    } else if policy.startAfterCancel {
      StartRestarts(file, policy);
      RestartBreaks(file, policy);
    } else if policy.onlineAfterCancel {
      OnlineRestarts(file, policy);
      RestartBreaks(file, policy);
    } else if policy.leaveDuringCancel {
      LeavingBreaks(file, policy);
    } else if policy.expireInUse {
      ExpiryBreaks(file, policy);
    } else {
      assert policy == CAREFUL;
      forall acts | CanRun(file, policy, INITIAL, acts) ensures AllGood(file, Run(file, policy, INITIAL, acts)) {
        RunsKeepInv(file, INITIAL, acts);
      }
    }
  }
}

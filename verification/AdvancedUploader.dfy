/** The resumable uploader's own fields, and the stretches of code between two awaits that change them. */
module AdvancedUploader {
  import opened Wrappers
  import opened Slicing

  const CONCURRENCY := 4
  const MAX_RETRIES := 5

  /** Object storage tags a part with a digest of its content, taken to be collision free. */
  datatype ETag = Md5(content: Bytes)

  type Parts = map<nat, ETag>

  /** The session record kept in browser storage. */
  datatype Saved = Saved(sid: nat, plan: Plan, done: Parts)

  /** `armed` says that an abort controller is installed. */
  datatype Fields = Fields(uploadId: Option<nat>, plan: Plan, done: Parts, paused: bool, offline: bool, armed: bool)

  const FRESH := Fields(None, Plan(0, 5 * 1024 * 1024), map[], false, false, false)

  /** Saved parts the backend does not report missing. */
  function Kept(done: Parts, missing: set<nat>): Parts {
    map p | p in done && p !in missing :: done[p]
  }

  /** `after` is `before` with the saved parts outside `skipped` put in. */
  ghost predicate Merged(before: Parts, after: Parts, saved: Parts, skipped: set<nat>) {
    && (forall p :: p in after <==> p in before || (p in saved && p !in skipped))
    && (forall p :: p in after ==>
          after[p] == if p in saved && p !in skipped then saved[p] else if p in before then before[p] else after[p])
  }

  function WithStatus(f: Fields, s: Saved, missing: set<nat>): Fields {
    f.(uploadId := Some(s.sid), plan := s.plan, done := f.done + Kept(s.done, missing))
  }

  function WithSession(f: Fields, sid: nat, plan: Plan): Fields {
    f.(uploadId := Some(sid), plan := plan)
  }

  function WithPart(f: Fields, part: nat, etag: ETag): Fields {
    f.(done := f.done[part := etag])
  }

  /** The flags that start, pause, cancel and the network events change. */
  function Resumed(f: Fields): Fields {
    f.(paused := false)
  }

  function Armed(f: Fields): Fields {
    f.(armed := true)
  }

  function Paused(f: Fields): Fields {
    f.(paused := true, armed := false)
  }

  function WentOffline(f: Fields): Fields {
    Paused(f.(offline := true))
  }

  function WentOnline(f: Fields): Fields {
    f.(offline := false)
  }

  /** Coming back online starts an upload again that was paused and has no controller. */
  predicate ResumesOnline(f: Fields) {
    f.paused && !f.armed
  }

  function Snapshot(f: Fields): Saved
    requires f.uploadId.Some?
  {
    Saved(f.uploadId.value, f.plan, f.done)
  }

  /** The parts 1..n still to upload, in order. */
  function Remaining(done: Parts, n: nat): seq<nat> {
    if n == 0 then [] else Remaining(done, n - 1) + (if n in done then [] else [n])
  }

  /** The queue is exactly the parts not done, in ascending order and without repeats. */
  lemma {:induction false} RemainingIsExact(done: Parts, n: nat)
    ensures forall p :: p in Remaining(done, n) <==> 1 <= p <= n && p !in done
    ensures forall i, j :: 0 <= i < j < |Remaining(done, n)| ==> Remaining(done, n)[i] < Remaining(done, n)[j]
  {
    if n > 0 {
      RemainingIsExact(done, n - 1);
      var q := Remaining(done, n - 1);
      forall i | 0 <= i < |q| ensures q[i] < n {
        assert q[i] in q;
      }
    }
  }

  predicate MayComplete(f: Fields) {
    !f.paused && !f.offline && |f.done| == f.plan.totalParts && f.uploadId.Some?
  }

  /** The backend's answer for a saved session. */
  datatype Status = Alive(missing: set<nat>) | Completed | Gone

  datatype Init = Active | Inactive | Failure

  /** Neither the saved session nor an earlier one can be used. */
  predicate NeedsSession(f: Fields, saved: Option<Saved>, status: Status) {
    (saved.Some? ==> status.Gone?) && f.uploadId.None?
  }

  /** An initialization that nothing interrupts: the saved session is taken over, reported complete, or dropped,
      and without a session one is created, if the backend allows it. `writes` says whether browser storage can
      be written, for dropping and for the record of a new session. */
  function Initialized(
      f: Fields, saved: Option<Saved>, status: Status, created: Option<(nat, Plan)>, writes: bool): (Fields, Init) {
    if saved.Some? && status.Completed? then (WithSession(f, saved.value.sid, saved.value.plan), Inactive)
    else if saved.Some? && status.Gone? && !writes then (f, Failure)
    else
      var g := if saved.Some? && status.Alive? then WithStatus(f, saved.value, status.missing) else f;
      if g.uploadId.Some? then (g, Active)
      else if created.None? then (g, Failure)
      else (WithSession(g, created.value.0, created.value.1), if writes then Active else Failure)
  }

  /** What an initialization comes to. A live session is taken over with the parts it keeps, and a completed one
      without any. Otherwise nothing is taken over: the uploader goes on with the session it has, or with a new
      one if it has none. Flags stay as they are. */
  lemma InitializedByStatus(f: Fields, saved: Option<Saved>, status: Status, created: Option<(nat, Plan)>, writes: bool)
    ensures var (g, init) := Initialized(f, saved, status, created, writes);
      && g.paused == f.paused && g.offline == f.offline && g.armed == f.armed
      && (init.Inactive? <==> saved.Some? && status.Completed?)
      && (init.Active? ==> g.uploadId.Some?)
      && (saved.Some? && !status.Gone? ==> g.uploadId == Some(saved.value.sid) && g.plan == saved.value.plan)
      && (saved.Some? && status.Alive? ==> init.Active? && Merged(f.done, g.done, saved.value.done, status.missing))
      && (!(saved.Some? && status.Alive?) ==> g.done == f.done)
      && (saved.None? || status.Gone? ==>
            if f.uploadId.Some? then g == f && (init.Active? <==> saved.None? || writes)
            else if created.Some? && (saved.None? || writes) then
              && g.uploadId == Some(created.value.0) && g.plan == created.value.1
              && init == (if writes then Active else Failure)
            else g == f && init.Failure?)
  {
  }

  /** How one attempt at a part ends. `Interrupted` is a pause or offline flag seen before sending, and `Unsaved` a
      part that was uploaded and recorded while its record could not be put in browser storage. */
  datatype AttemptResult = Interrupted | Uploaded | Unsaved | Failed

  datatype PartEnd = PartDone | PartLeft | PartFailed | PartUnknown

  class Uploader {
    const file: Bytes
    var uploadId: Option<nat>
    var plan: Plan
    var done: Parts
    var paused: bool
    var offline: bool
    var armed: bool

    constructor (file: Bytes, online: bool)
      ensures this.file == file && View() == FRESH.(offline := !online)
    {
      this.file := file;
      uploadId, plan, done := None, Plan(0, 5 * 1024 * 1024), map[];
      paused, offline, armed := false, !online, false;
    }

    function View(): Fields
      reads this
    {
      Fields(uploadId, plan, done, paused, offline, armed)
    }

    /** Puts in the saved parts that the backend does not miss, one by one. */
    method PutParts(saved: Parts, missing: set<nat>)
      modifies this`done
      ensures done == old(done) + Kept(saved, missing)
      ensures Merged(old(done), done, saved, missing)
    {
      ghost var before := done;
      var rest := saved.Keys;
      while rest != {}
        invariant rest <= saved.Keys
        invariant Merged(before, done, saved, missing + rest)
        decreases rest
      {
        var p :| p in rest;
        if p !in missing {
          done := done[p := saved[p]];
        }
        rest := rest - {p};
      }
      assert missing + rest == missing;
    }

    /** Puts back the parts a saved session and the backend agree on. */
    method ApplyStatus(s: Saved, missing: set<nat>)
      modifies this
      ensures View() == WithStatus(old(View()), s, missing)
      ensures uploadId == Some(s.sid) && plan == s.plan && Merged(old(done), done, s.done, missing)
    {
      uploadId := Some(s.sid);
      plan := s.plan;
      PutParts(s.done, missing);
    }

    method ApplySession(sid: nat, plan: Plan)
      modifies this
      ensures View() == WithSession(old(View()), sid, plan)
    {
      uploadId := Some(sid);
      this.plan := plan;
    }

    method BuildQueue() returns (queue: seq<nat>, workers: nat)
      ensures queue == Remaining(done, plan.totalParts)
      ensures workers == if |queue| < 4 then |queue| else 4
    {
      queue := [];
      for i := 0 to plan.totalParts
        invariant queue == Remaining(done, i)
      {
        assert Remaining(done, i + 1) == Remaining(done, i) + (if i + 1 in done then [] else [i + 1]);
        if i + 1 !in done {
          queue := queue + [i + 1];
        }
      }
      workers := Min(CONCURRENCY, |queue|);
    }

    /** `stored` is the record that a newly created session leaves in browser storage. */
    method InitializeSession(saved: Option<Saved>, status: Status, created: Option<(nat, Plan)>, writes: bool)
      returns (r: Init, stored: Option<Saved>)
      modifies this
      ensures (View(), r) == Initialized(old(View()), saved, status, created, writes)
      ensures stored == if r.Active? && NeedsSession(old(View()), saved, status) then Some(Snapshot(View())) else None
      ensures r.Active? ==> uploadId.Some?
    {
      stored := None;
      if saved.Some? {
        match status {
          case Alive(missing) => ApplyStatus(saved.value, missing);
          case Completed =>
            ApplySession(saved.value.sid, saved.value.plan);
            return Inactive, None;
          case Gone =>
            if !writes {
              return Failure, None;
            }
        }
      }
      if uploadId.None? {
        if created.None? {
          return Failure, None;
        }
        ApplySession(created.value.0, created.value.1);
        if !writes {
          return Failure, None;
        }
        stored := Some(Saved(uploadId.value, plan, done));
      }
      r := Active;
    }

    /** Start up to the point where the workers are let loose. */
    method Start(saved: Option<Saved>, status: Status, created: Option<(nat, Plan)>, writes: bool) returns (r: Init)
      modifies this
      ensures var (g, init) := Initialized(Resumed(old(View())), saved, status, created, writes);
        r == init && View() == if init.Active? then Armed(g) else g
      ensures !paused && (r.Active? ==> armed && uploadId.Some?)
    {
      paused := false;
      var stored;
      r, stored := InitializeSession(saved, status, created, writes);
      if r.Active? {
        armed := true;
      }
    }

    /** Tries a part at most five times, until it is recorded and saved. A part without an address is not tried.
        `saved` is the record that this leaves in browser storage. */
    method UploadPartWithRetry(part: nat, hasUrl: bool, results: nat -> AttemptResult)
      returns (end: PartEnd, attempts: nat, saved: Option<Saved>)
      requires part >= 1
      modifies this`done
      ensures attempts <= 5 && (end.PartUnknown? <==> !hasUrl) && (!hasUrl ==> attempts == 0)
      ensures forall k :: 0 <= k < attempts - 1 ==> results(k).Failed? || results(k).Unsaved?
      ensures View() ==
        if exists k :: 0 <= k < attempts && (results(k).Uploaded? || results(k).Unsaved?)
        then WithPart(old(View()), part, Md5(PartBytes(file, plan.partSize, part))) else old(View())
      ensures end.PartDone? <==> attempts > 0 && results(attempts - 1).Uploaded?
      ensures saved == if end.PartDone? && uploadId.Some? then Some(Snapshot(View())) else None
      ensures end.PartLeft? ==> attempts < 5 && results(attempts).Interrupted?
      ensures end.PartFailed? ==> attempts == 5
    {
      attempts := 0;
      if !hasUrl {
        return PartUnknown, 0, None;
      }
      var start := (part - 1) * plan.partSize;
      var blob := Slice(file, start, Min(start + plan.partSize, |file|));
      while attempts < MAX_RETRIES
        invariant attempts <= MAX_RETRIES
        invariant forall k :: 0 <= k < attempts ==> results(k).Failed? || results(k).Unsaved?
        invariant done == if exists k :: 0 <= k < attempts && results(k).Unsaved? then old(done)[part := Md5(blob)]
                          else old(done)
      {
        var result := results(attempts);
        if result.Interrupted? {
          return PartLeft, attempts, None;
        }
        attempts := attempts + 1;
        if result.Uploaded? || result.Unsaved? {
          done := done[part := Md5(blob)];
        }
        if result.Uploaded? {
          saved := if uploadId.Some? then Some(Saved(uploadId.value, plan, done)) else None;
          return PartDone, attempts, saved;
        }
      }
      return PartFailed, attempts, None;
    }

    /** After all workers have finished: the part list to complete with, if any. */
    method FinishPool() returns (parts: Option<Parts>, incomplete: bool)
      ensures parts == if MayComplete(View()) then Some(done) else None
      ensures parts.Some? <==> !paused && !offline && |done| == plan.totalParts && uploadId.Some?
      ensures incomplete <==> !paused && !offline && |done| != plan.totalParts
    {
      if paused || offline {
        return None, false;
      }
      if |done| == plan.totalParts {
        if uploadId.None? {
          return None, false;
        }
        return Some(done), false;
      }
      return None, true;
    }

    method Pause()
      modifies this
      ensures View() == Paused(old(View())) && paused && !armed
    {
      paused := true;
      armed := false;
    }

    /** The session to abort at the backend, if there is one. */
    method Cancel() returns (session: Option<nat>)
      modifies this
      ensures View() == Paused(old(View())) && paused && !armed && session == uploadId
    {
      Pause();
      session := uploadId;
    }

    method GoOffline()
      modifies this
      ensures View() == WentOffline(old(View())) && offline && paused && !armed
    {
      offline := true;
      Pause();
    }

    method GoOnline() returns (resume: bool)
      modifies this
      ensures View() == WentOnline(old(View())) && !offline && paused == old(paused)
      ensures resume == ResumesOnline(old(View())) == (old(paused) && !old(armed))
    {
      offline := false;
      resume := paused && !armed;
    }
  }
}

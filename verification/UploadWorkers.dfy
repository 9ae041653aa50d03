/** The workers of a pool: when they take a part, when they give up, and how their steps add up to the uploader's own
    method for one part. */
module UploadWorkers {
  import opened Wrappers
  import opened Slicing
  import opened AdvancedUploader
  import opened UploadRuns

  // ---------------------------------------------------------------- taking a part

  /** Worker w of pool i is sending. */
  predicate Sends(s: State, i: nat, w: nat) {
    HasWorker(s, i, w) && s.tasks[i].workers[w].Putting?
  }

  /** The pool has a part left, and the upload is neither paused nor offline. */
  predicate MayTake(s: State, i: nat, w: nat) {
    && HasWorker(s, i, w) && s.tasks[i].workers[w].Idle?
    && s.tasks[i].index < |s.tasks[i].queue| && !s.f.paused && !s.f.offline
  }

  predicate HasFailed(s: State, i: nat) {
    i < |s.tasks| && s.tasks[i].Pool? && s.tasks[i].failed
  }

  /** The step picks a part that has no address, or that there is no session for. */
  predicate PicksUnknown(s: State, a: Action, i: nat) {
    && a.Pick? && a.i == i && MayTake(s, i, a.w)
    && !(a.hasUrl && s.f.uploadId.Some? && s.tasks[i].queue[s.tasks[i].index] >= 1)
  }

  /** A reply in one place is not seen in another. */
  lemma RespondElsewhere(s: State, i: nat, w: nat, ok: bool, j: nat, v: nat)
    requires Sends(s, i, w) && (i != j || w != v)
    ensures Sends(RespondStep(s, i, w, ok), j, v) <==> Sends(s, j, v)
  {
  }

  lemma SentDoesNotTake(file: Bytes, policy: Policy, s: State, a: Action, i: nat, w: nat)
    requires Enabled(file, policy, s, a) && HasWorker(s, i, w) && !Sends(s, i, w) && (a.Land? || a.Leave?)
    ensures !Sends(Step(file, policy, s, a), i, w)
  {
  }

  lemma OthersDoNotTake(file: Bytes, policy: Policy, s: State, a: Action, i: nat, w: nat)
    requires Enabled(file, policy, s, a) && HasWorker(s, i, w) && !Sends(s, i, w)
    requires !a.Pick? && !a.Respond? && !a.SaveFailed?
    ensures !Sends(Step(file, policy, s, a), i, w)
  {
    if a.Land? || a.Leave? {
      SentDoesNotTake(file, policy, s, a, i, w);
    }
  }

  lemma PickTakes(file: Bytes, s: State, i: nat, w: nat, hasUrl: bool)
    requires HasWorker(s, i, w) && s.tasks[i].workers[w].Idle?
    ensures var t := PickStep(file, s, i, w, hasUrl);
      && (Sends(t, i, w) <==>
            hasUrl && MayTake(s, i, w) && s.f.uploadId.Some? && s.tasks[i].queue[s.tasks[i].index] >= 1)
      && (Sends(t, i, w) ==>
            var part := s.tasks[i].queue[s.tasks[i].index];
            && t.tasks[i].workers[w]
               == Putting(s.f.uploadId.value, part, PartBytes(file, s.f.plan.partSize, part), 0, false)
            && t.tasks[i].index == s.tasks[i].index + 1)
      && (HasFailed(t, i) <==> HasFailed(s, i) || PicksUnknown(s, Pick(i, w, hasUrl), i))
  {
  }

  /** A pick in one place is not seen in another. */
  lemma PickElsewhere(file: Bytes, s: State, i: nat, w: nat, hasUrl: bool, j: nat, v: nat)
    requires HasWorker(s, i, w) && (i != j || w != v)
    ensures Sends(PickStep(file, s, i, w, hasUrl), j, v) <==> Sends(s, j, v)
    ensures i != j ==> (HasFailed(PickStep(file, s, i, w, hasUrl), j) <==> HasFailed(s, j))
  {
  }

  /** A worker starts to send exactly when it picks the next part of its pool, with an address and a session, while
      the upload is neither paused nor offline; and it sends the bytes of that part to that session. */
  lemma TakesWhenRunning(file: Bytes, policy: Policy, s: State, a: Action, i: nat, w: nat)
    requires Enabled(file, policy, s, a) && HasWorker(s, i, w) && !Sends(s, i, w)
    ensures Sends(Step(file, policy, s, a), i, w) <==>
      && a == Pick(i, w, true) && MayTake(s, i, w)
      && s.f.uploadId.Some? && s.tasks[i].queue[s.tasks[i].index] >= 1
    ensures Sends(Step(file, policy, s, a), i, w) ==>
      var part, x := s.tasks[i].queue[s.tasks[i].index], Step(file, policy, s, a).tasks[i].workers[w];
      && x == Putting(s.f.uploadId.value, part, PartBytes(file, s.f.plan.partSize, part), 0, false)
      && Step(file, policy, s, a).tasks[i].index == s.tasks[i].index + 1
  {
    if a.Pick? {
      if a.i == i && a.w == w {
        PickTakes(file, s, i, w, a.hasUrl);
      } else {
        PickElsewhere(file, s, a.i, a.w, a.hasUrl, i, w);
      }
    } else if a.Respond? {
      RespondElsewhere(s, a.i, a.w, a.ok, i, w);
    } else if a.SaveFailed? {
      var x := s.tasks[a.i].workers[a.w];
      RespondElsewhere(s.(f := WithPart(s.f, x.part, Md5(x.content))), a.i, a.w, false, i, w);
    } else {
      OthersDoNotTake(file, policy, s, a, i, w);
    }
  }

  // ---------------------------------------------------------------- giving up

  /** The step is the last attempt of a worker of pool i, and it fails: it is not answered, or its part cannot be
      recorded in browser storage. */
  predicate LastAttemptFails(s: State, a: Action, i: nat) {
    && ((a.Respond? && !a.ok) || a.SaveFailed?) && a.i == i && Sends(s, i, a.w)
    && s.tasks[i].workers[a.w].attempt >= 4
  }

  lemma RespondFails(s: State, i: nat, w: nat, ok: bool, j: nat)
    requires Sends(s, i, w)
    ensures var t := RespondStep(s, i, w, ok);
      HasFailed(t, j) <==> HasFailed(s, j) || (i == j && !ok && s.tasks[i].workers[w].attempt >= 4)
  {
  }

  lemma OthersDoNotFail(file: Bytes, policy: Policy, s: State, a: Action, i: nat)
    requires Enabled(file, policy, s, a) && i < |s.tasks| && s.tasks[i].Pool? && !HasFailed(s, i)
    requires !a.Pick? && !a.Respond? && !a.SaveFailed?
    ensures !HasFailed(Step(file, policy, s, a), i)
  {
  }

  /** A pool fails exactly when a worker of it has failed for the fifth time on a part, or has picked a part that it
      cannot send. Being interrupted is no failure. */
  lemma FailsWhenExhausted(file: Bytes, policy: Policy, s: State, a: Action, i: nat)
    requires Enabled(file, policy, s, a) && i < |s.tasks| && s.tasks[i].Pool? && !HasFailed(s, i)
    ensures HasFailed(Step(file, policy, s, a), i) <==> LastAttemptFails(s, a, i) || PicksUnknown(s, a, i)
  {
    if a.Pick? {
      if a.i == i {
        PickTakes(file, s, i, a.w, a.hasUrl);
      } else {
        PickElsewhere(file, s, a.i, a.w, a.hasUrl, i, a.w);
      }
    } else if a.Respond? {
      RespondFails(s, a.i, a.w, a.ok, i);
    } else if a.SaveFailed? {
      var x := s.tasks[a.i].workers[a.w];
      RespondFails(s.(f := WithPart(s.f, x.part, Md5(x.content))), a.i, a.w, false, i);
    } else {
      OthersDoNotFail(file, policy, s, a, i);
    }
  }

  // ---------------------------------------------------------------- one part is a run of steps

  /** The attempt that is not simply made again: the first from k on that is interrupted or succeeds, or 5. */
  function Ending(results: nat -> AttemptResult, k: nat): nat
    requires k <= 5
    decreases 5 - k
  {
    if k == 5 || results(k).Uploaded? || results(k).Interrupted? then k else Ending(results, k + 1)
  }

  /** The steps of a worker that sends its part, from attempt k on. */
  function TryActs(i: nat, w: nat, results: nat -> AttemptResult, k: nat): seq<Action>
    requires k <= 5
    decreases 5 - k
  {
    if k == 5 then []
    else
      match results(k)
      case Interrupted => []
      case Uploaded => [Land(i, w)] + ([Respond(i, w, true)] + [])
      case Unsaved => [Land(i, w)] + ([SaveFailed(i, w)] + TryActs(i, w, results, k + 1))
      case Failed => [Respond(i, w, false)] + TryActs(i, w, results, k + 1)
  }

  /** Some attempt from k up to n has put the part in the map. */
  predicate Arrives(results: nat -> AttemptResult, k: nat, n: nat) {
    exists j :: k <= j <= n && j < 5 && (results(j).Uploaded? || results(j).Unsaved?)
  }

  /** A worker about to make attempt k, for the session in use. */
  predicate Trying(file: Bytes, s: State, i: nat, w: nat, k: nat) {
    && Sends(s, i, w)
    && var x := s.tasks[i].workers[w];
       && x.attempt == k && !x.landed && s.f.uploadId == Some(x.sid) && x.sid !in s.srv.aborted
       && x.part >= 1 && x.content == PartBytes(file, s.f.plan.partSize, x.part)
  }

  /** What has become of the worker and of the map. */
  predicate TriedAs(file: Bytes, s: State, t: State, i: nat, w: nat, part: nat, results: nat -> AttemptResult, k: nat)
    requires k <= 5 && part >= 1
  {
    var n := Ending(results, k);
    && HasWorker(t, i, w)
    && t.f == (if Arrives(results, k, n) then WithPart(s.f, part, Md5(PartBytes(file, s.f.plan.partSize, part)))
               else s.f)
    && (n == 5 ==> t.tasks[i].workers[w].Finished? && HasFailed(t, i))
    && (n < 5 ==> (HasFailed(t, i) <==> HasFailed(s, i)))
    && (n < 5 && results(n).Uploaded? ==>
          t.tasks[i].workers[w].Idle? && t.f.uploadId.Some? && t.saved == Some(Snapshot(t.f)))
    && (n < 5 && results(n).Interrupted? ==> t.tasks[i].workers[w].Putting? && t.saved == s.saved)
  }

  lemma LandTries(file: Bytes, policy: Policy, s: State, i: nat, w: nat, k: nat)
    requires Trying(file, s, i, w, k)
    ensures Enabled(file, policy, s, Land(i, w))
    ensures var t := Step(file, policy, s, Land(i, w));
      && Sends(t, i, w) && t.tasks[i].workers[w] == s.tasks[i].workers[w].(landed := true)
      && t.f == s.f && t.saved == s.saved && (HasFailed(t, i) <==> HasFailed(s, i))
      && t.srv.aborted == s.srv.aborted
  {
  }

  /** An attempt fails: the next one is made, or the pool has failed. */
  lemma RespondTries(file: Bytes, s: State, i: nat, w: nat, k: nat)
    requires Sends(s, i, w) && s.tasks[i].workers[w].attempt == k < 5 && Trying(file, Unlanded(s, i, w), i, w, k)
    ensures var t := RespondStep(s, i, w, false);
      && t.f == s.f && t.saved == s.saved && HasWorker(t, i, w)
      && (k < 4 ==>
            && Trying(file, t, i, w, k + 1) && t.tasks[i].workers[w].part == s.tasks[i].workers[w].part
            && (HasFailed(t, i) <==> HasFailed(s, i)))
      && (k == 4 ==> t.tasks[i].workers[w].Finished? && HasFailed(t, i))
  {
  }

  /** The part lands and goes into the map, but its record cannot be saved. */
  lemma UnsavedTries(file: Bytes, policy: Policy, s: State, i: nat, w: nat, k: nat)
    requires k < 5 && Trying(file, s, i, w, k)
    ensures Enabled(file, policy, s, Land(i, w))
    ensures Enabled(file, policy, Step(file, policy, s, Land(i, w)), SaveFailed(i, w))
    ensures var t := Step(file, policy, Step(file, policy, s, Land(i, w)), SaveFailed(i, w));
      var part := s.tasks[i].workers[w].part;
      && t.f == WithPart(s.f, part, Md5(PartBytes(file, s.f.plan.partSize, part))) && HasWorker(t, i, w)
      && (k < 4 ==>
            && Trying(file, t, i, w, k + 1) && t.tasks[i].workers[w].part == part && t.saved == s.saved
            && (HasFailed(t, i) <==> HasFailed(s, i)))
      && (k == 4 ==> t.tasks[i].workers[w].Finished? && HasFailed(t, i))
  {
    LandTries(file, policy, s, i, w, k);
    var u := Step(file, policy, s, Land(i, w));
    var x := u.tasks[i].workers[w];
    RespondTries(file, u.(f := WithPart(u.f, x.part, Md5(x.content))), i, w, k);
  }

  function Unlanded(s: State, i: nat, w: nat): State
    requires Sends(s, i, w)
  {
    SetWorker(s, i, w, s.tasks[i].workers[w].(landed := false))
  }

  /** The reply of a part that landed: it goes into the map and the record, and the worker goes on. */
  lemma ReplyTries(file: Bytes, policy: Policy, s: State, i: nat, w: nat)
    requires Sends(s, i, w) && s.tasks[i].workers[w].landed && s.f.uploadId.Some?
    ensures Enabled(file, policy, s, Respond(i, w, true))
    ensures var t, x := Step(file, policy, s, Respond(i, w, true)), s.tasks[i].workers[w];
      && HasWorker(t, i, w) && t.tasks[i].workers[w].Idle? && (HasFailed(t, i) <==> HasFailed(s, i))
      && t.f == WithPart(s.f, x.part, Md5(x.content)) && t.saved == Some(Snapshot(t.f))
  {
  }

  /** An interrupted worker lets go of its part without failing, and looks for the next one if the upload goes on. */
  lemma InterruptedGoesOn(file: Bytes, policy: Policy, s: State, i: nat, w: nat, hasUrl: bool)
    requires Sends(s, i, w) && (s.f.paused || s.f.offline)
    ensures Enabled(file, policy, s, Leave(i, w))
    ensures var t := Step(file, policy, s, Leave(i, w));
      Enabled(file, policy, t, Pick(i, w, hasUrl)) && t.f == s.f && (HasFailed(t, i) <==> HasFailed(s, i))
  {
  }

  lemma UploadedIsSteps(
      file: Bytes, policy: Policy, s: State, i: nat, w: nat, results: nat -> AttemptResult, k: nat)
    requires k < 5 && Trying(file, s, i, w, k) && results(k).Uploaded?
    ensures CanRun(file, policy, s, TryActs(i, w, results, k))
    ensures var t := Run(file, policy, s, TryActs(i, w, results, k));
      TriedAs(file, s, t, i, w, s.tasks[i].workers[w].part, results, k)
  {
    LandTries(file, policy, s, i, w, k);
    var u := Step(file, policy, s, Land(i, w));
    ReplyTries(file, policy, u, i, w);
    RunThen(file, policy, u, Respond(i, w, true), []);
    RunThen(file, policy, s, Land(i, w), [Respond(i, w, true)] + []);
    assert Arrives(results, k, k);
  }

  lemma ArrivesLater(results: nat -> AttemptResult, k: nat)
    requires k < 5 && (results(k).Failed? || results(k).Unsaved?)
    ensures Ending(results, k) == Ending(results, k + 1) >= k + 1
    ensures Arrives(results, k, Ending(results, k))
      <==> results(k).Unsaved? || Arrives(results, k + 1, Ending(results, k + 1))
  {
    EndingIsLater(results, k + 1);
  }

  lemma {:induction false} EndingIsLater(results: nat -> AttemptResult, k: nat)
    requires k <= 5
    ensures k <= Ending(results, k) <= 5
    decreases 5 - k
  {
    if k < 5 {
      EndingIsLater(results, k + 1);
    }
  }

  /** Recording a part again changes nothing. */
  lemma TriedAfterUnsaved(
      file: Bytes, s: State, v: State, t: State, i: nat, w: nat, part: nat, results: nat -> AttemptResult, k: nat)
    requires k < 4 && part >= 1 && results(k).Unsaved? && TriedAs(file, v, t, i, w, part, results, k + 1)
    requires v.f == WithPart(s.f, part, Md5(PartBytes(file, s.f.plan.partSize, part))) && v.saved == s.saved
    requires HasFailed(v, i) <==> HasFailed(s, i)
    ensures TriedAs(file, s, t, i, w, part, results, k)
  {
    ArrivesLater(results, k);
    assert WithPart(v.f, part, Md5(PartBytes(file, s.f.plan.partSize, part))) == v.f;
  }

  lemma LastUnsaved(file: Bytes, s: State, v: State, i: nat, w: nat, part: nat, results: nat -> AttemptResult)
    requires part >= 1 && results(4).Unsaved? && HasWorker(v, i, w)
    requires v.f == WithPart(s.f, part, Md5(PartBytes(file, s.f.plan.partSize, part)))
    requires v.tasks[i].workers[w].Finished? && HasFailed(v, i)
    ensures TriedAs(file, s, v, i, w, part, results, 4)
  {
    ArrivesLater(results, 4);
  }

  /** The steps of a worker for its part do what the uploader's own method does: the part is in the map exactly if some
      attempt has uploaded it, the worker goes on after the first that is recorded and saved, and the pool fails after
      the fifth that is not. */
  lemma {:induction false} PartIsSteps(
      file: Bytes, policy: Policy, s: State, i: nat, w: nat, results: nat -> AttemptResult, k: nat)
    requires k < 5 && Trying(file, s, i, w, k)
    ensures CanRun(file, policy, s, TryActs(i, w, results, k))
    ensures var t := Run(file, policy, s, TryActs(i, w, results, k));
      TriedAs(file, s, t, i, w, s.tasks[i].workers[w].part, results, k)
    decreases 5 - k
  {
    match results(k)
    case Interrupted =>
      assert !Arrives(results, k, k);
    case Uploaded => UploadedIsSteps(file, policy, s, i, w, results, k);
    case Failed => FailedIsSteps(file, policy, s, i, w, results, k);
    case Unsaved => UnsavedIsSteps(file, policy, s, i, w, results, k);
  }

  lemma {:induction false} FailedIsSteps(
      file: Bytes, policy: Policy, s: State, i: nat, w: nat, results: nat -> AttemptResult, k: nat)
    requires k < 5 && Trying(file, s, i, w, k) && results(k).Failed?
    ensures CanRun(file, policy, s, TryActs(i, w, results, k))
    ensures var t := Run(file, policy, s, TryActs(i, w, results, k));
      TriedAs(file, s, t, i, w, s.tasks[i].workers[w].part, results, k)
    decreases 5 - k, 0
  {
    RespondTries(file, s, i, w, k);
    ArrivesLater(results, k);
    var u := Step(file, policy, s, Respond(i, w, false));
    if k < 4 {
      PartIsSteps(file, policy, u, i, w, results, k + 1);
    }
    RunThen(file, policy, s, Respond(i, w, false), TryActs(i, w, results, k + 1));
  }

  lemma {:induction false} UnsavedIsSteps(
      file: Bytes, policy: Policy, s: State, i: nat, w: nat, results: nat -> AttemptResult, k: nat)
    requires k < 5 && Trying(file, s, i, w, k) && results(k).Unsaved?
    ensures CanRun(file, policy, s, TryActs(i, w, results, k))
    ensures var t := Run(file, policy, s, TryActs(i, w, results, k));
      TriedAs(file, s, t, i, w, s.tasks[i].workers[w].part, results, k)
    decreases 5 - k, 0
  {
    UnsavedTries(file, policy, s, i, w, k);
    ArrivesLater(results, k);
    var u := Step(file, policy, s, Land(i, w));
    var v := Step(file, policy, u, SaveFailed(i, w));
    if k < 4 {
      PartIsSteps(file, policy, v, i, w, results, k + 1);
      var t := Run(file, policy, v, TryActs(i, w, results, k + 1));
      TriedAfterUnsaved(file, s, v, t, i, w, s.tasks[i].workers[w].part, results, k);
    } else {
      LastUnsaved(file, s, v, i, w, s.tasks[i].workers[w].part, results);
    }
    RunThen(file, policy, u, SaveFailed(i, w), TryActs(i, w, results, k + 1));
    RunThen(file, policy, s, Land(i, w), [SaveFailed(i, w)] + TryActs(i, w, results, k + 1));
  }
}

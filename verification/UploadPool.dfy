/** The avatar uploader: up to four workers share a cursor over the presigned parts and write into one
    results array. A run interleaves the workers at their awaits. */
module UploadPool {
  import opened Wrappers
  import opened Slicing
  import opened Totals

  type ETag = string

  datatype CompletedPart = CompletedPart(partNumber: int, etag: ETag)

  /** The results array: assigning past its end extends it with holes, and an index below zero is a
      plain property that the array does not contain. */
  type Results = seq<Option<ETag>>

  const CONCURRENCY := 4
  const MAX_PART_RETRIES := 3

  function Lookup(r: Results, p: int): Option<ETag> {
    if 1 <= p <= |r| then r[p - 1] else None
  }

  function Holes(n: nat): Results {
    seq(n, _ => None)
  }

  function Assign(r: Results, p: int, e: ETag): Results {
    if p < 1 then r
    else if p <= |r| then r[p - 1 := Some(e)]
    else r + Holes(p - 1 - |r|) + [Some(e)]
  }

  lemma AssignLookup(r: Results, p: int, e: ETag, q: int)
    ensures Lookup(Assign(r, p, e), q) == if q == p && p >= 1 then Some(e) else Lookup(r, q)
  {
  }

  /** The non-null entries, in index order. */
  function Collected(r: Results): seq<CompletedPart> {
    if r == [] then []
    else
      var n := |r| - 1;
      Collected(r[..n]) + (if r[n].Some? then [CompletedPart(n + 1, r[n].value)] else [])
  }

  predicate Ascending(c: seq<CompletedPart>) {
    forall i, j :: 0 <= i < j < |c| ==> c[i].partNumber < c[j].partNumber
  }

  lemma {:induction false} CollectedMembers(r: Results, c: CompletedPart)
    ensures c in Collected(r) <==> Lookup(r, c.partNumber) == Some(c.etag)
  {
    if r != [] {
      var n := |r| - 1;
      CollectedMembers(r[..n], c);
      assert c in Collected(r) <==>
        c in Collected(r[..n]) || (r[n].Some? && c == CompletedPart(n + 1, r[n].value));
      if c.partNumber != n + 1 {
        assert Lookup(r, c.partNumber) == Lookup(r[..n], c.partNumber);
      }
    }
  }

  lemma {:induction false} CollectedAscends(r: Results)
    ensures Ascending(Collected(r)) && forall i :: 0 <= i < |Collected(r)| ==> Collected(r)[i].partNumber <= |r|
  {
    if r != [] {
      CollectedAscends(r[..|r| - 1]);
    }
  }

  lemma CollectedIsExact(r: Results)
    ensures Ascending(Collected(r))
    ensures forall c :: c in Collected(r) <==> Lookup(r, c.partNumber) == Some(c.etag)
  {
    CollectedAscends(r);
    forall c ensures c in Collected(r) <==> Lookup(r, c.partNumber) == Some(c.etag) {
      CollectedMembers(r, c);
    }
  }

  datatype PutResult = Stored(etag: ETag) | NoETag | Refused | Unreachable

  class PartPool {
    const parts: seq<int>
    const fileSize: nat
    const partSize: nat
    const totalParts: nat
    var results: Results
    var cursor: nat
    var uploadedBytes: int

    constructor (parts: seq<int>, fileSize: nat, partSize: nat, totalParts: nat)
      ensures this.parts == parts && this.fileSize == fileSize && this.partSize == partSize
      ensures this.totalParts == totalParts
      ensures results == Holes(totalParts) && cursor == 0 && uploadedBytes == 0
    {
      this.parts, this.fileSize, this.partSize, this.totalParts := parts, fileSize, partSize, totalParts;
      results, cursor, uploadedBytes := Holes(totalParts), 0, 0;
    }

    /** What a worker does up to its next await: take the part at the cursor, or return. */
    method TakeNext() returns (part: Option<int>)
      modifies this`cursor
      ensures part == if old(cursor) < |parts| then Some(parts[old(cursor)]) else None
      ensures cursor == if old(cursor) < |parts| then old(cursor) + 1 else old(cursor)
    {
      if cursor < |parts| {
        part := Some(parts[cursor]);
        cursor := cursor + 1;
      } else {
        part := None;
      }
    }

    method PartDone(part: int, etag: ETag)
      modifies this`results, this`uploadedBytes
      ensures results == Assign(old(results), part, etag)
      ensures uploadedBytes == old(uploadedBytes) + Counted(fileSize, partSize, part)
    {
      if part >= 1 {
        if part <= |results| {
          results := results[part - 1 := Some(etag)];
        } else {
          results := results + Holes(part - 1 - |results|) + [Some(etag)];
        }
      }
      uploadedBytes := uploadedBytes + Min(partSize, fileSize - (part - 1) * partSize);
    }

    /** The result of the whole upload once every worker has returned. */
    method Finish() returns (completed: seq<CompletedPart>, ok: bool)
      ensures completed == Collected(results)
      ensures ok == (|completed| == totalParts)
    {
      completed := [];
      for i := 0 to |results|
        invariant completed == Collected(results[..i])
      {
        assert results[..i + 1][..i] == results[..i];
        if results[i].Some? {
          completed := completed + [CompletedPart(i + 1, results[i].value)];
        }
      }
      assert results[..|results|] == results;
      ok := |completed| == totalParts;
    }
  }

  function Counted(fileSize: nat, partSize: nat, part: int): int {
    Min(partSize, fileSize - (part - 1) * partSize)
  }

  /** A position in a slice: clamped to the size, and counted from the end if it is negative. */
  function Position(size: nat, at: int): nat {
    if at >= 0 then Min(at, size) else if size + at >= 0 then size + at else 0
  }

  function Cut(file: Bytes, start: int, partSize: nat): Bytes {
    var from, to := Position(|file|, start), Position(|file|, Min(start + partSize, |file|));
    if from < to then file[from..to] else []
  }

  /** What the browser cuts out for a part, whatever its number. */
  function Blob(file: Bytes, partSize: nat, part: int): Bytes {
    Cut(file, (part - 1) * partSize, partSize)
  }

  lemma CutIsSlice(file: Bytes, start: nat, partSize: nat)
    ensures Cut(file, start, partSize) == Slice(file, start, Min(start + partSize, |file|))
  {
  }

  lemma BlobIsPart(file: Bytes, partSize: nat, part: nat)
    requires part >= 1
    ensures Blob(file, partSize, part) == PartBytes(file, partSize, part)
  {
    CutIsSlice(file, (part - 1) * partSize, partSize);
  }

  /** One part is tried at most three times, each time with the same bytes; the first response that carries a
      tag decides. `sent` are the bodies sent. */
  method UploadPart(file: Bytes, partSize: nat, part: int, responses: nat -> PutResult)
    returns (etag: Option<ETag>, attempts: nat, sent: seq<Bytes>)
    ensures 1 <= attempts <= 3 && |sent| == attempts
    ensures forall k :: 0 <= k < attempts ==> sent[k] == Blob(file, partSize, part)
    ensures part >= 1 ==> forall k :: 0 <= k < attempts ==> sent[k] == PartBytes(file, partSize, part)
    ensures forall k :: 0 <= k < attempts - 1 ==> !responses(k).Stored?
    ensures match etag
      case Some(e) => responses(attempts - 1) == Stored(e)
      case None => attempts == 3 && !responses(attempts - 1).Stored?
  {
    var start := (part - 1) * partSize;
    var from, to := Position(|file|, start), Position(|file|, Min(start + partSize, |file|));
    var blob := if from < to then file[from..to] else [];
    if part >= 1 {
      BlobIsPart(file, partSize, part);
    }
    attempts, sent := 0, [];
    while attempts < MAX_PART_RETRIES
      invariant attempts <= MAX_PART_RETRIES && |sent| == attempts
      invariant forall k :: 0 <= k < attempts ==> sent[k] == blob
      invariant forall k :: 0 <= k < attempts ==> !responses(k).Stored?
    {
      var r := responses(attempts);
      attempts, sent := attempts + 1, sent + [blob];
      if r.Stored? {
        return Some(r.etag), attempts, sent;
      }
    }
    etag := None;
  }

  // ---------------------------------------------------------------- runs

  datatype Worker = Idle | Sending(part: int) | Returned | Threw(part: int)

  /** `log` lists the parts acknowledged so far with the tags received. */
  datatype State = State(cursor: nat, workers: seq<Worker>, results: Results, uploadedBytes: int, log: seq<(int, ETag)>)

  datatype Session = Session(parts: seq<int>, fileSize: nat, partSize: nat, totalParts: nat)

  datatype Action = Take(w: nat) | Done(w: nat, etag: ETag) | Fail(w: nat)

  function Begin(c: Session): State {
    State(0, seq(Min(CONCURRENCY, |c.parts|), _ => Idle), Holes(c.totalParts), 0, [])
  }

  predicate Enabled(s: State, a: Action) {
    && a.w < |s.workers|
    && if a.Take? then s.workers[a.w].Idle? else s.workers[a.w].Sending?
  }

  function Step(c: Session, s: State, a: Action): State
    requires Enabled(s, a)
  {
    match a
    case Take(w) =>
      if s.cursor < |c.parts| then
        s.(cursor := s.cursor + 1, workers := s.workers[w := Sending(c.parts[s.cursor])])
      else s.(workers := s.workers[w := Returned])
    case Done(w, etag) =>
      var part := s.workers[w].part;
      s.(workers := s.workers[w := Idle], results := Assign(s.results, part, etag),
         uploadedBytes := s.uploadedBytes + Counted(c.fileSize, c.partSize, part), log := s.log + [(part, etag)])
    case Fail(w) => s.(workers := s.workers[w := Threw(s.workers[w].part)])
  }

  predicate CanRun(c: Session, s: State, acts: seq<Action>)
    decreases |acts|
  {
    acts == [] || (Enabled(s, acts[0]) && CanRun(c, Step(c, s, acts[0]), acts[1..]))
  }

  function Run(c: Session, s: State, acts: seq<Action>): State
    requires CanRun(c, s, acts)
    decreases |acts|
  {
    if acts == [] then s else Run(c, Step(c, s, acts[0]), acts[1..])
  }

  // ---------------------------------------------------------------- invariant

  /** Whether a worker has taken this part and not had it acknowledged. */
  function Holds(p: int): Worker -> nat {
    (x: Worker) => if (x.Sending? || x.Threw?) && x.part == p then 1 else 0
  }

  lemma {:induction false} NothingHeld(workers: seq<Worker>, p: int)
    requires forall w :: 0 <= w < |workers| ==> !workers[w].Sending? && !workers[w].Threw?
    ensures Total(Holds(p), workers) == 0
  {
    if workers != [] {
      NothingHeld(workers[1..], p);
    }
  }

  function Numbers(log: seq<(int, ETag)>): seq<int> {
    if log == [] then [] else Numbers(log[..|log| - 1]) + [log[|log| - 1].0]
  }

  function CountedSum(c: Session, ps: seq<int>): int {
    if ps == [] then 0 else CountedSum(c, ps[..|ps| - 1]) + Counted(c.fileSize, c.partSize, ps[|ps| - 1])
  }

  /** Of the indices taken so far, those of part p are each with one worker or acknowledged. */
  predicate Balanced(c: Session, s: State, p: int) {
    && s.cursor <= |c.parts|
    && multiset(c.parts[..s.cursor])[p] == multiset(Numbers(s.log))[p] + Total(Holds(p), s.workers)
  }

  ghost predicate ResultsFollowLog(s: State) {
    && (forall p, e :: Lookup(s.results, p) == Some(e) ==> (p, e) in s.log)
    && (forall x :: x in s.log && x.0 >= 1 ==> Lookup(s.results, x.0).Some?)
  }

  ghost predicate AllBalanced(c: Session, s: State) {
    forall p :: Balanced(c, s, p)
  }

  ghost predicate Booked(c: Session, s: State) {
    && ResultsFollowLog(s)
    && s.uploadedBytes == CountedSum(c, Numbers(s.log))
    && (forall w :: 0 <= w < |s.workers| && s.workers[w].Returned? ==> s.cursor >= |c.parts|)
  }

  ghost predicate Inv(c: Session, s: State) {
    AllBalanced(c, s) && Booked(c, s)
  }

  lemma NumbersSnoc(log: seq<(int, ETag)>, x: (int, ETag))
    ensures Numbers(log + [x]) == Numbers(log) + [x.0]
  {
    assert (log + [x])[..|log|] == log;
  }

  lemma CountSnoc(ps: seq<int>, x: int, p: int)
    ensures multiset(ps + [x])[p] == multiset(ps)[p] + (if x == p then 1 else 0)
  {
  }

  lemma TakeBalanced(c: Session, s: State, a: Action, p: int)
    requires Balanced(c, s, p) && a.Take? && Enabled(s, a)
    ensures Balanced(c, Step(c, s, a), p)
  {
    TotalUpdate(Holds(p), s.workers, a.w, Step(c, s, a).workers[a.w]);
    if s.cursor < |c.parts| {
      CountSnoc(c.parts[..s.cursor], c.parts[s.cursor], p);
      assert c.parts[..s.cursor + 1] == c.parts[..s.cursor] + [c.parts[s.cursor]];
    }
  }

  lemma FailBalanced(c: Session, s: State, a: Action, p: int)
    requires Balanced(c, s, p) && a.Fail? && Enabled(s, a)
    ensures Balanced(c, Step(c, s, a), p)
  {
    TotalUpdate(Holds(p), s.workers, a.w, Threw(s.workers[a.w].part));
  }

  /** An acknowledged part moves from its worker to the log. */
  lemma PartMoves(log: seq<(int, ETag)>, workers: seq<Worker>, w: nat, part: int, etag: ETag, p: int)
    requires w < |workers| && workers[w] == Sending(part)
    ensures multiset(Numbers(log + [(part, etag)]))[p] + Total(Holds(p), workers[w := Idle])
      == multiset(Numbers(log))[p] + Total(Holds(p), workers)
  {
    TotalUpdate(Holds(p), workers, w, Idle);
    NumbersSnoc(log, (part, etag));
    CountSnoc(Numbers(log), part, p);
  }

  lemma DoneBalanced(c: Session, s: State, a: Action, p: int)
    requires Balanced(c, s, p) && a.Done? && Enabled(s, a)
    ensures Balanced(c, Step(c, s, a), p)
  {
    PartMoves(s.log, s.workers, a.w, s.workers[a.w].part, a.etag, p);
  }

  lemma DoneFollowsLog(s: State, part: int, etag: ETag)
    requires ResultsFollowLog(s)
    ensures ResultsFollowLog(s.(results := Assign(s.results, part, etag), log := s.log + [(part, etag)]))
  {
    var r, log := Assign(s.results, part, etag), s.log + [(part, etag)];
    forall p, e | Lookup(r, p) == Some(e) ensures (p, e) in log {
      AssignLookup(s.results, part, etag, p);
    }
    forall x | x in log && x.0 >= 1 ensures Lookup(r, x.0).Some? {
      AssignLookup(s.results, part, etag, x.0);
    }
  }

  lemma StepBalanced(c: Session, s: State, a: Action)
    requires AllBalanced(c, s) && Enabled(s, a)
    ensures AllBalanced(c, Step(c, s, a))
  {
    forall p ensures Balanced(c, Step(c, s, a), p) {
      if a.Take? {
        TakeBalanced(c, s, a, p);
      } else if a.Done? {
        DoneBalanced(c, s, a, p);
      } else {
        FailBalanced(c, s, a, p);
      }
    }
  }

  lemma StepReturned(c: Session, s: State, a: Action)
    requires forall w :: 0 <= w < |s.workers| && s.workers[w].Returned? ==> s.cursor >= |c.parts|
    requires Enabled(s, a)
    ensures var t := Step(c, s, a);
      forall w :: 0 <= w < |t.workers| && t.workers[w].Returned? ==> t.cursor >= |c.parts|
  {
  }

  lemma DoneBooked(c: Session, s: State, part: int, etag: ETag)
    requires ResultsFollowLog(s) && s.uploadedBytes == CountedSum(c, Numbers(s.log))
    ensures var t := s.(results := Assign(s.results, part, etag),
                        uploadedBytes := s.uploadedBytes + Counted(c.fileSize, c.partSize, part),
                        log := s.log + [(part, etag)]);
      ResultsFollowLog(t) && t.uploadedBytes == CountedSum(c, Numbers(t.log))
  {
    DoneFollowsLog(s, part, etag);
    DoneCounts(c, s.log, part, etag);
  }

  lemma StepBooked(c: Session, s: State, a: Action)
    requires Booked(c, s) && Enabled(s, a)
    ensures Booked(c, Step(c, s, a))
  {
    StepReturned(c, s, a);
    if a.Done? {
      DoneBooked(c, s, s.workers[a.w].part, a.etag);
    }
  }

  lemma StepInv(c: Session, s: State, a: Action)
    requires Inv(c, s) && Enabled(s, a)
    ensures Inv(c, Step(c, s, a))
  {
    StepBalanced(c, s, a);
    StepBooked(c, s, a);
  }

  lemma DoneCounts(c: Session, log: seq<(int, ETag)>, part: int, etag: ETag)
    ensures CountedSum(c, Numbers(log + [(part, etag)]))
      == CountedSum(c, Numbers(log)) + Counted(c.fileSize, c.partSize, part)
  {
    NumbersSnoc(log, (part, etag));
    assert (Numbers(log) + [part])[..|Numbers(log)|] == Numbers(log);
  }

  lemma {:induction false} RunInv(c: Session, s: State, acts: seq<Action>)
    requires Inv(c, s) && CanRun(c, s, acts)
    ensures Inv(c, Run(c, s, acts))
    ensures |Run(c, s, acts).workers| == |s.workers|
    decreases |acts|
  {
    if acts != [] {
      StepInv(c, s, acts[0]);
      RunInv(c, Step(c, s, acts[0]), acts[1..]);
    }
  }

  lemma {:induction false} HolesHoldNothing(n: nat, p: int)
    ensures Lookup(Holes(n), p) == None
  {
  }

  lemma BeginInv(c: Session)
    ensures Inv(c, Begin(c))
  {
    forall p ensures Balanced(c, Begin(c), p) {
      NothingHeld(Begin(c).workers, p);
    }
    forall p ensures Lookup(Begin(c).results, p) == None {
      HolesHoldNothing(c.totalParts, p);
    }
  }

  predicate AllReturned(s: State) {
    forall w :: 0 <= w < |s.workers| ==> s.workers[w].Returned?
  }

  lemma {:induction false} InNumbers(log: seq<(int, ETag)>, p: int)
    ensures p in Numbers(log) <==> exists x :: x in log && x.0 == p
  {
    if log != [] {
      var n := |log| - 1;
      InNumbers(log[..n], p);
      assert log == log[..n] + [log[n]];
    }
  }

  /** When every worker has returned, every part was acknowledged, each as often as it was listed. */
  lemma AllAcknowledged(c: Session, s: State)
    requires Inv(c, s) && AllReturned(s) && s.workers != []
    ensures multiset(Numbers(s.log)) == multiset(c.parts)
  {
    assert s.workers[0].Returned?;
    forall p ensures multiset(Numbers(s.log))[p] == multiset(c.parts)[p] {
      NothingHeld(s.workers, p);
      assert Balanced(c, s, p);
      assert c.parts[..|c.parts|] == c.parts;
    }
  }

  /** There are four workers throughout, or one for each part if fewer are listed, so no more parts are on their way at
      once. */
  lemma {:induction false} FourAtATime(c: Session, s: State, acts: seq<Action>)
    requires CanRun(c, s, acts) && |s.workers| == |Begin(c).workers|
    ensures |Run(c, s, acts).workers| == (if |c.parts| < 4 then |c.parts| else 4)
    decreases |acts|
  {
    if acts != [] {
      FourAtATime(c, Step(c, s, acts[0]), acts[1..]);
    }
  }

  // ---------------------------------------------------------------- exactness

  predicate IsOneTo(c: seq<CompletedPart>, n: nat) {
    |c| == n && forall i :: 0 <= i < n ==> c[i].partNumber == i + 1
  }

  lemma {:induction false} AscendingFrom(c: seq<CompletedPart>, i: nat)
    requires Ascending(c) && i < |c| && forall k :: 0 <= k < |c| ==> c[k].partNumber >= 1
    ensures c[i].partNumber >= i + 1
  {
    if i > 0 {
      AscendingFrom(c, i - 1);
    }
  }

  lemma {:induction false} AscendingTo(c: seq<CompletedPart>, i: nat, n: nat)
    requires Ascending(c) && i < |c| && forall k :: 0 <= k < |c| ==> c[k].partNumber <= n
    ensures c[i].partNumber <= n - (|c| - 1 - i)
    decreases |c| - i
  {
    if i + 1 < |c| {
      AscendingTo(c, i + 1, n);
    }
  }

  lemma AscendingFull(c: seq<CompletedPart>, n: nat)
    requires Ascending(c) && |c| == n && forall k :: 0 <= k < |c| ==> 1 <= c[k].partNumber
    ensures IsOneTo(c, n) <==> forall k :: 0 <= k < |c| ==> c[k].partNumber <= n
  {
    if forall k :: 0 <= k < |c| ==> c[k].partNumber <= n {
      forall i | 0 <= i < n ensures c[i].partNumber == i + 1 {
        AscendingFrom(c, i);
        AscendingTo(c, i, n);
      }
    }
  }

  predicate Listed(done: seq<CompletedPart>, p: int) {
    exists x :: x in done && x.partNumber == p
  }

  predicate Acknowledged(log: seq<(int, ETag)>, p: int) {
    exists x :: x in log && x.0 == p
  }

  /** Every interleaving whose workers all return collects the distinct positive part numbers in
      ascending order, each with a tag received for it. If their number is totalParts, the list is
      1..totalParts exactly when no presigned part lies beyond totalParts. */
  lemma PoolIsExact(c: Session, acts: seq<Action>)
    requires c.parts != [] && CanRun(c, Begin(c), acts) && AllReturned(Run(c, Begin(c), acts))
    ensures var t := Run(c, Begin(c), acts);
      var done := Collected(t.results);
      && Ascending(done)
      && (forall x :: x in done ==> x.partNumber in c.parts && x.partNumber >= 1 && (x.partNumber, x.etag) in t.log)
      && (forall p :: p in c.parts && p >= 1 ==> Listed(done, p))
      && (|done| == c.totalParts ==> (IsOneTo(done, c.totalParts) <==> forall p :: p in c.parts ==> p <= c.totalParts))
  {
    BeginInv(c);
    RunInv(c, Begin(c), acts);
    var t := Run(c, Begin(c), acts);
    var done := Collected(t.results);
    LogListsParts(c, t);
    CollectedFollowLog(t);
    assert forall p :: p in c.parts && p >= 1 ==> Acknowledged(t.log, p);
    if |done| == c.totalParts {
      assert forall k :: 0 <= k < |done| ==> done[k] in done;
      AscendingFull(done, c.totalParts);
      WithinIffListed(c, done);
    }
  }

  lemma LogListsParts(c: Session, t: State)
    requires Inv(c, t) && AllReturned(t) && t.workers != []
    ensures forall x :: x in t.log ==> x.0 in c.parts
    ensures forall p :: p in c.parts ==> Acknowledged(t.log, p)
  {
    AllAcknowledged(c, t);
    forall x | x in t.log ensures x.0 in c.parts {
      InNumbers(t.log, x.0);
      assert x.0 in multiset(c.parts);
    }
    forall p | p in c.parts ensures Acknowledged(t.log, p) {
      InNumbers(t.log, p);
      assert p in multiset(c.parts);
    }
  }

  lemma CollectedFollowLog(t: State)
    requires ResultsFollowLog(t)
    ensures Ascending(Collected(t.results))
    ensures forall x :: x in Collected(t.results) ==> x.partNumber >= 1 && (x.partNumber, x.etag) in t.log
    ensures forall p :: p >= 1 && Acknowledged(t.log, p) ==> Listed(Collected(t.results), p)
  {
    CollectedIsExact(t.results);
    forall p | p >= 1 && Acknowledged(t.log, p) ensures Listed(Collected(t.results), p) {
      assert CompletedPart(p, Lookup(t.results, p).value) in Collected(t.results);
    }
  }

  lemma WithinIffListed(c: Session, done: seq<CompletedPart>)
    requires forall x :: x in done ==> x.partNumber in c.parts
    requires forall p :: p in c.parts && p >= 1 ==> Listed(done, p)
    ensures (forall k :: 0 <= k < |done| ==> done[k].partNumber <= c.totalParts)
      <==> (forall p :: p in c.parts ==> p <= c.totalParts)
  {
    if forall k :: 0 <= k < |done| ==> done[k].partNumber <= c.totalParts {
      forall p | p in c.parts ensures p <= c.totalParts {
        if p >= 1 {
          assert Listed(done, p);
          var x :| x in done && x.partNumber == p;
        }
      }
    }
    if forall p :: p in c.parts ==> p <= c.totalParts {
      forall k | 0 <= k < |done| ensures done[k].partNumber <= c.totalParts {
        assert done[k] in done;
      }
    }
  }

  // ---------------------------------------------------------------- progress

  function OneTo(n: nat): seq<int> {
    if n == 0 then [] else OneTo(n - 1) + [n]
  }

  predicate Distinct(c: Session) {
    multiset(c.parts) == multiset(OneTo(c.totalParts))
  }

  lemma {:induction false} InOneTo(n: nat, p: int)
    ensures p in OneTo(n) <==> 1 <= p <= n
  {
    if n > 0 {
      InOneTo(n - 1, p);
    }
  }

  lemma {:induction false} CountedSumRemove(c: Session, ps: seq<int>, i: nat)
    requires i < |ps|
    ensures CountedSum(c, ps) == CountedSum(c, ps[..i] + ps[i + 1..]) + Counted(c.fileSize, c.partSize, ps[i])
  {
    var n := |ps| - 1;
    var rest := ps[..i] + ps[i + 1..];
    if i == n {
      assert rest == ps[..n];
    } else {
      CountedSumRemove(c, ps[..n], i);
      assert ps[..n][..i] + ps[..n][i + 1..] == rest[..n - 1];
    }
  }

  /** The byte total does not depend on the order in which parts complete. */
  lemma {:induction false} CountedSumPermuted(c: Session, a: seq<int>, b: seq<int>)
    requires multiset(a) == multiset(b)
    ensures CountedSum(c, a) == CountedSum(c, b)
    decreases |a|
  {
    if a == [] {
      assert |multiset(b)| == |b|;
    } else {
      var n := |a| - 1;
      var i := WithoutLast(a, b);
      CountedSumPermuted(c, a[..n], b[..i] + b[i + 1..]);
      CountedSumRemove(c, b, i);
    }
  }

  lemma WithoutLast(a: seq<int>, b: seq<int>) returns (i: nat)
    requires a != [] && multiset(a) == multiset(b)
    ensures i < |b| && b[i] == a[|a| - 1]
    ensures multiset(a[..|a| - 1]) == multiset(b[..i] + b[i + 1..])
  {
    var n := |a| - 1;
    assert a[n] in multiset(b);
    i :| 0 <= i < |b| && b[i] == a[n];
    assert a == a[..n] + [a[n]];
    assert b == b[..i] + [b[i]] + b[i + 1..];
    assert multiset(a[..n]) == multiset(a) - multiset{a[n]};
  }

  lemma {:induction false} CountedSumIsTotal(c: Session, n: nat)
    ensures CountedSum(c, OneTo(n)) == CountedTotal(c.fileSize, c.partSize, n)
  {
    if n > 0 {
      CountedSumIsTotal(c, n - 1);
      assert OneTo(n)[..|OneTo(n)| - 1] == OneTo(n - 1);
    }
  }

  lemma PartCountsNonNegative(c: Session, p: int)
    requires Tight(c.fileSize, Plan(c.totalParts, c.partSize)) && 1 <= p <= c.totalParts
    ensures Counted(c.fileSize, c.partSize, p) >= 0
  {
    ProductGrows(c.partSize, p - 1, c.totalParts - 1);
  }

  /** With the parts 1..totalParts of a tight plan, in any order, the byte count never decreases and, when
      all workers have returned, is the file size. */
  lemma ProgressReachesFileSize(c: Session, acts: seq<Action>, more: seq<Action>)
    requires Distinct(c) && Tight(c.fileSize, Plan(c.totalParts, c.partSize))
    requires CanRun(c, Begin(c), acts) && CanRun(c, Run(c, Begin(c), acts), more)
    ensures var s := Run(c, Begin(c), acts);
      var t := Run(c, s, more);
      && s.uploadedBytes <= t.uploadedBytes
      && (AllReturned(t) ==> t.uploadedBytes == c.fileSize)
  {
    BeginInv(c);
    RunInv(c, Begin(c), acts);
    var s := Run(c, Begin(c), acts);
    RunInv(c, s, more);
    BytesGrow(c, s, more);
    var t := Run(c, s, more);
    if AllReturned(t) {
      assert c.parts != [] by {
        InOneTo(c.totalParts, 1);
        assert 1 in multiset(c.parts);
      }
      AllAcknowledged(c, t);
      CountedSumPermuted(c, Numbers(t.log), OneTo(c.totalParts));
      CountedSumIsTotal(c, c.totalParts);
      ProgressAddsUp(c.fileSize, Plan(c.totalParts, c.partSize));
    }
  }

  lemma StepBytes(c: Session, s: State, a: Action)
    requires Distinct(c) && Tight(c.fileSize, Plan(c.totalParts, c.partSize)) && Inv(c, s) && Enabled(s, a)
    ensures s.uploadedBytes <= Step(c, s, a).uploadedBytes
  {
    if a.Done? {
      var p := s.workers[a.w].part;
      TotalMember(Holds(p), s.workers, a.w);
      assert Balanced(c, s, p);
      assert p in multiset(c.parts[..s.cursor]);
      assert c.parts == c.parts[..s.cursor] + c.parts[s.cursor..];
      assert p in multiset(c.parts);
      InOneTo(c.totalParts, p);
      PartCountsNonNegative(c, p);
    }
  }

  lemma {:induction false} BytesGrow(c: Session, s: State, acts: seq<Action>)
    requires Distinct(c) && Tight(c.fileSize, Plan(c.totalParts, c.partSize)) && Inv(c, s) && CanRun(c, s, acts)
    ensures s.uploadedBytes <= Run(c, s, acts).uploadedBytes
    decreases |acts|
  {
    if acts != [] {
      StepInv(c, s, acts[0]);
      StepBytes(c, s, acts[0]);
      BytesGrow(c, Step(c, s, acts[0]), acts[1..]);
    }
  }
}

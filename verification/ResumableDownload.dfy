/** Downloading with HTTP Range resumption: at most five fetches, restarted when the origin ignores the
    range. An honest origin follows sections 14.2, 14.4 and 15.3.7 of RFC 9110. */
module ResumableDownload {
  import opened Wrappers

  type Bytes = seq<bv8>

  const MAX_RETRIES := 4

  datatype ContentLength = Absent | Garbage | Stated(n: nat)

  /** The chunks read, and whether reading then fails instead of ending. */
  datatype Body = Body(chunks: seq<Bytes>, broken: bool)

  /** `rangeTotal` is the complete length of a Content-Range header, when one is given as a number. */
  datatype Response =
    | Unreachable
    | Reply(status: nat, length: ContentLength, rangeTotal: Option<nat>, body: Option<Body>)

  /** The response to the i-th fetch when it asks for the bytes from an offset. */
  type Origin = (nat, nat) -> Response

  datatype Outcome = Saved(content: Bytes) | Thrown

  datatype Progress = Progress(bytes: Bytes, total: Option<nat>)

  function Concat(chunks: seq<Bytes>): Bytes {
    if chunks == [] then [] else Concat(chunks[..|chunks| - 1]) + chunks[|chunks| - 1]
  }

  predicate Ok(r: Response) {
    r.Reply? && 200 <= r.status <= 299
  }

  /** What is kept when a reply arrives: nothing, if bytes were held and the reply is not partial. */
  function Base(held: Bytes, r: Response): Bytes
    requires Ok(r)
  {
    if held != [] && r.status != 206 then [] else held
  }

  /** The total the code works with. A missing Content-Length reads as zero. */
  function TotalAfter(base: Bytes, known: Option<nat>, r: Response): Option<nat>
    requires Ok(r)
  {
    if r.rangeTotal.Some? then r.rangeTotal
    else match r.length
      case Absent => Some(|base|)
      case Garbage => known
      case Stated(n) => Some(|base| + n)
  }

  /** One pass of the loop: the new progress, and whether the download is finished. */
  function Attempt(p: Progress, r: Response): (Progress, bool) {
    if !Ok(r) then (p, false)
    else
      var base := Base(p.bytes, r);
      var total := TotalAfter(base, p.total, r);
      if r.body.None? then (Progress(base, total), false)
      else
        var bytes := base + Concat(r.body.value.chunks);
        (Progress(bytes, total), !r.body.value.broken && !(total.Some? && |bytes| < total.value))
  }

  function Download(origin: Origin, aborted: nat -> bool, p: Progress, attempt: nat): Outcome
    requires attempt <= MAX_RETRIES
    decreases MAX_RETRIES - attempt
  {
    var (q, finished) := Attempt(p, origin(attempt, |p.bytes|));
    if finished then Saved(q.bytes)
    else if aborted(attempt) || attempt == MAX_RETRIES then Thrown
    else Download(origin, aborted, q, attempt + 1)
  }

  const NOTHING := Progress([], None)

  /** The reading loop: each chunk is pushed and counted until the body ends. */
  method ReadChunks(held: seq<Bytes>, count: nat, body: Body) returns (chunks: seq<Bytes>, received: nat)
    requires count == |Concat(held)|
    ensures Concat(chunks) == Concat(held) + Concat(body.chunks) && received == |Concat(chunks)|
  {
    chunks, received := held, count;
    for i := 0 to |body.chunks|
      invariant Concat(chunks) == Concat(held) + Concat(body.chunks[..i])
      invariant received == |Concat(chunks)|
    {
      assert body.chunks[..i + 1][..i] == body.chunks[..i];
      assert (chunks + [body.chunks[i]])[..|chunks|] == chunks;
      chunks := chunks + [body.chunks[i]];
      received := received + |body.chunks[i]|;
    }
    assert body.chunks[..|body.chunks|] == body.chunks;
  }

  /** What is done with a reply; `failed` stands for an exception on the way. */
  method HandleReply(held: seq<Bytes>, count: nat, known: Option<nat>, response: Response)
      returns (chunks: seq<Bytes>, received: nat, total: Option<nat>, failed: bool)
    requires count == |Concat(held)|
    ensures (Progress(Concat(chunks), total), !failed) == Attempt(Progress(Concat(held), known), response)
    ensures received == |Concat(chunks)|
  {
    chunks, received, total := held, count, known;
    failed := true;
    if response.Reply? && 200 <= response.status <= 299 {
      if received > 0 && response.status != 206 {
        chunks, received := [], 0;
      }
      match response.rangeTotal {
        case Some(n) => total := Some(n);
        case None =>
          match response.length {
            case Absent => total := Some(received);
            case Garbage =>
            case Stated(n) => total := Some(received + n);
          }
      }
      if response.body.Some? {
        var body := response.body.value;
        chunks, received := ReadChunks(chunks, received, body);
        failed := body.broken || (total.Some? && received < total.value);
      }
    }
  }

  /** The loop as written: fetch from where the bytes end, until a reply is whole. */
  method DownloadWithResume(origin: Origin, aborted: nat -> bool) returns (outcome: Outcome, fetches: nat)
    ensures outcome == Download(origin, aborted, NOTHING, 0)
    ensures 1 <= fetches <= 5
    ensures forall k :: 0 <= k < fetches - 1 ==> !aborted(k)
    ensures outcome == Thrown ==> fetches == 5 || aborted(fetches - 1)
  {
    var chunks: seq<Bytes> := [];
    var received: nat := 0;
    var total: Option<nat> := None;
    var attempt: nat := 0;
    fetches := 0;
    while true
      invariant attempt <= MAX_RETRIES && fetches == attempt
      invariant forall k :: 0 <= k < attempt ==> !aborted(k)
      invariant received == |Concat(chunks)|
      invariant Download(origin, aborted, NOTHING, 0)
        == Download(origin, aborted, Progress(Concat(chunks), total), attempt)
      decreases MAX_RETRIES - attempt
    {
      var response := origin(attempt, received);
      fetches := fetches + 1;
      var failed;
      chunks, received, total, failed := HandleReply(chunks, received, total, response);
      if !failed {
        return Saved(Concat(chunks)), fetches;
      }
      if aborted(attempt) || attempt >= MAX_RETRIES {
        return Thrown, fetches;
      }
      attempt := attempt + 1;
    }
  }

  // ---------------------------------------------------------------- what one pass keeps

  /** The bytes that stay when a reply arrives: all of them if it is partial, and none otherwise. */
  function Staying(p: Progress, r: Response): nat {
    if r.Reply? && r.status == 206 then |p.bytes| else 0
  }

  /** The reply leaves the download expecting n bytes in all: from Content-Range if it gives a complete length, else
      from Content-Length, on top of what stays; no length at all expects nothing more, and one that cannot be
      read leaves the earlier expectation. */
  predicate Expects(p: Progress, r: Response, n: nat) {
    && r.Reply?
    && match r.rangeTotal
       case Some(total) => n == total
       case None =>
         match r.length
         case Absent => n == Staying(p, r)
         case Garbage => p.total == Some(n)
         case Stated(k) => n == Staying(p, r) + k
  }

  /** Whatever comes of a reply, the bytes it brought are kept behind those that stay, also when its body breaks off;
      a fetch that is refused keeps everything. It ends the download exactly if its body has ended by itself and
      nothing more is expected. */
  lemma AttemptIsExact(p: Progress, r: Response)
    ensures !(r.Reply? && 200 <= r.status < 300) ==> Attempt(p, r) == (p, false)
    ensures r.Reply? && 200 <= r.status < 300 ==>
      Attempt(p, r).0.bytes == p.bytes[..Staying(p, r)] + if r.body.Some? then Concat(r.body.value.chunks) else []
    ensures Attempt(p, r).1 <==>
      && r.Reply? && 200 <= r.status < 300 && r.body.Some? && !r.body.value.broken
      && forall n :: Expects(p, r, n) ==> |Attempt(p, r).0.bytes| >= n
  {
    if Ok(r) {
      assert p.bytes[..|p.bytes|] == p.bytes && p.bytes[..0] == [];
      var total := TotalAfter(Base(p.bytes, r), p.total, r);
      if total.Some? {
        assert Expects(p, r, total.value);
      }
    }
  }

  /** The bytes that arrive over the fetches of a download. */
  function Fetched(origin: Origin, aborted: nat -> bool, p: Progress, attempt: nat): nat
    requires attempt <= MAX_RETRIES
    decreases MAX_RETRIES - attempt
  {
    var r := origin(attempt, |p.bytes|);
    var (q, finished) := Attempt(p, r);
    var arrived := if Ok(r) && r.body.Some? then |Concat(r.body.value.chunks)| else 0;
    arrived + if finished || aborted(attempt) || attempt == MAX_RETRIES then 0
              else Fetched(origin, aborted, q, attempt + 1)
  }

  /** Once bytes are held, successful replies are partial. */
  ghost predicate Resuming(origin: Origin) {
    forall i: nat, offset: nat :: offset > 0 && Ok(origin(i, offset)) ==> origin(i, offset).status == 206
  }

  /** With an origin that resumes, no byte is fetched twice: what is saved is as long as all that arrived, and what
      was held before. */
  lemma {:induction false} NothingFetchedTwice(origin: Origin, aborted: nat -> bool, p: Progress, attempt: nat)
    requires attempt <= MAX_RETRIES && Resuming(origin)
    ensures var o := Download(origin, aborted, p, attempt);
      o.Saved? ==> |o.content| == |p.bytes| + Fetched(origin, aborted, p, attempt)
    decreases MAX_RETRIES - attempt
  {
    var r := origin(attempt, |p.bytes|);
    AttemptIsExact(p, r);
    var (q, finished) := Attempt(p, r);
    assert Ok(r) ==> Staying(p, r) == |p.bytes|;
    if !finished && !aborted(attempt) && attempt < MAX_RETRIES {
      NothingFetchedTwice(origin, aborted, q, attempt + 1);
    }
  }

  // ---------------------------------------------------------------- honest origins

  /** The body starts where the request asked (206), or at the beginning (any other success). */
  predicate Honest(file: Bytes, offset: nat, r: Response)
    requires offset <= |file|
  {
    Ok(r) ==>
      && (r.status == 206 ==> offset > 0)
      && (r.body.Some? ==> Concat(r.body.value.chunks) <= if r.status == 206 then file[offset..] else file)
  }

  /** The reply states the complete length in Content-Range, or the length of what it sends in
      Content-Length: the rest of the file if it is partial, else the whole. */
  predicate StatesLength(file: Bytes, offset: nat, r: Response)
    requires offset <= |file|
  {
    Ok(r) ==>
      || r.rangeTotal == Some(|file|)
      || (r.rangeTotal == None && r.length == Stated(if r.status == 206 then |file| - offset else |file|))
  }

  ghost predicate HonestOrigin(file: Bytes, origin: Origin) {
    forall i: nat, offset: nat :: offset <= |file| ==> Honest(file, offset, origin(i, offset))
  }

  ghost predicate StatingOrigin(file: Bytes, origin: Origin) {
    forall i: nat, offset: nat :: offset <= |file| ==> StatesLength(file, offset, origin(i, offset))
  }

  lemma PrefixGrows(file: Bytes, a: Bytes, b: Bytes)
    requires a <= file && b <= file[|a|..]
    ensures a + b <= file
  {
  }

  /** Whatever happens, the bytes held are the first bytes of the file; a partial reply never loses any. */
  lemma AttemptKeepsPrefix(file: Bytes, p: Progress, r: Response)
    requires p.bytes <= file && Honest(file, |p.bytes|, r)
    ensures Attempt(p, r).0.bytes <= file
    ensures Ok(r) && r.status == 206 ==> p.bytes <= Attempt(p, r).0.bytes
    ensures StatesLength(file, |p.bytes|, r) && Attempt(p, r).1 ==> Attempt(p, r).0.bytes == file
  {
    if Ok(r) && r.body.Some? {
      PrefixGrows(file, Base(p.bytes, r), Concat(r.body.value.chunks));
    }
  }

  lemma {:induction false} DownloadIsPrefix(
    file: Bytes, origin: Origin, aborted: nat -> bool, p: Progress, attempt: nat)
    requires attempt <= MAX_RETRIES && p.bytes <= file && HonestOrigin(file, origin)
    ensures var o := Download(origin, aborted, p, attempt);
      o.Saved? ==> o.content <= file && (StatingOrigin(file, origin) ==> o.content == file)
    decreases MAX_RETRIES - attempt
  {
    var r := origin(attempt, |p.bytes|);
    AttemptKeepsPrefix(file, p, r);
    var (q, finished) := Attempt(p, r);
    if !finished && !aborted(attempt) && attempt < MAX_RETRIES {
      DownloadIsPrefix(file, origin, aborted, q, attempt + 1);
    }
  }

  ghost predicate AlwaysWhole(file: Bytes, stating: bool) {
    forall origin: Origin, aborted: nat -> bool ::
      HonestOrigin(file, origin) && (stating ==> StatingOrigin(file, origin))
      && Download(origin, aborted, NOTHING, 0).Saved?
      ==> Download(origin, aborted, NOTHING, 0).content == file
  }

  /** An honest origin that sends nothing and states no length. */
  function SilentOrigin(): Origin {
    (i: nat, offset: nat) => Reply(200, Absent, None, Some(Body([], false)))
  }

  /** A saved download is the whole file for every honest origin exactly if the origins state the length;
      otherwise an early end goes unnoticed, unless there is nothing to download. */
  lemma WholeIffLengthStated(file: Bytes, stating: bool)
    ensures AlwaysWhole(file, stating) <==> stating || file == []
  {
    forall origin: Origin, aborted: nat -> bool |
      HonestOrigin(file, origin) && Download(origin, aborted, NOTHING, 0).Saved?
      ensures Download(origin, aborted, NOTHING, 0).content <= file
      ensures StatingOrigin(file, origin) ==> Download(origin, aborted, NOTHING, 0).content == file
    {
      DownloadIsPrefix(file, origin, aborted, NOTHING, 0);
    }
    if !stating && file != [] {
      var origin := SilentOrigin();
      var never := (i: nat) => false;
      assert HonestOrigin(file, origin);
      assert Download(origin, never, NOTHING, 0) == Saved([]);
    }
  }

  lemma FullAttempt(file: Bytes, p: Progress, r: Response)
    requires p.bytes <= file && Honest(file, |p.bytes|, r) && AnsweredInFull(file, |p.bytes|, r)
    ensures Attempt(p, r).1 && Attempt(p, r).0.bytes == file
  {
    var base := Base(p.bytes, r);
    assert base + file[|base|..] == file;
  }

  /** Five fetches are enough whenever one of them is answered in full before the attempts run out. */
  lemma {:induction false} FullReplyFinishes(
    file: Bytes, origin: Origin, aborted: nat -> bool, p: Progress, attempt: nat, k: nat)
    requires attempt <= k <= MAX_RETRIES && p.bytes <= file && HonestOrigin(file, origin) && StatingOrigin(file, origin)
    requires forall i: nat :: !aborted(i)
    requires forall offset: nat :: offset <= |file| ==> AnsweredInFull(file, offset, origin(k, offset))
    ensures Download(origin, aborted, p, attempt) == Saved(file)
    decreases MAX_RETRIES - attempt
  {
    var r := origin(attempt, |p.bytes|);
    AttemptKeepsPrefix(file, p, r);
    if attempt == k {
      FullAttempt(file, p, r);
    } else if !Attempt(p, r).1 {
      FullReplyFinishes(file, origin, aborted, Attempt(p, r).0, attempt + 1, k);
    }
  }

  predicate AnsweredInFull(file: Bytes, offset: nat, r: Response)
    requires offset <= |file|
  {
    && Ok(r) && r.body.Some? && !r.body.value.broken && StatesLength(file, offset, r)
    && Concat(r.body.value.chunks) == if r.status == 206 then file[offset..] else file
  }

  // ---------------------------------------------------------------- errors after the last byte

  /** From a given fetch on, what is answered at all is answered in full. */
  ghost predicate FullFrom(file: Bytes, origin: Origin, attempt: nat) {
    forall k: nat, offset: nat :: attempt <= k <= MAX_RETRIES && offset <= |file| && Ok(origin(k, offset))
      ==> AnsweredInFull(file, offset, origin(k, offset))
  }

  /** Some fetch from this one on is answered when it asks for the bytes from the offset. */
  ghost predicate AnsweredFrom(origin: Origin, attempt: nat, offset: nat) {
    exists k: nat :: attempt <= k <= MAX_RETRIES && Ok(origin(k, offset))
  }

  /** As long as answers are full ones, a download that is not aborted is saved if and only if one of the
      fetches left is answered at the offset that the bytes held ask for. */
  lemma {:induction false} SavedIffAnswered(
    file: Bytes, origin: Origin, aborted: nat -> bool, p: Progress, attempt: nat)
    requires attempt <= MAX_RETRIES && p.bytes <= file && HonestOrigin(file, origin) && FullFrom(file, origin, attempt)
    requires forall i: nat :: attempt <= i ==> !aborted(i)
    ensures Download(origin, aborted, p, attempt)
      == if AnsweredFrom(origin, attempt, |p.bytes|) then Saved(file) else Thrown
    decreases MAX_RETRIES - attempt
  {
    var r := origin(attempt, |p.bytes|);
    if Ok(r) {
      FullAttempt(file, p, r);
    } else if attempt < MAX_RETRIES {
      SavedIffAnswered(file, origin, aborted, p, attempt + 1);
      if k: nat :| attempt <= k <= MAX_RETRIES && Ok(origin(k, |p.bytes|)) {
        assert k != attempt;
      }
    }
  }

  /** With every byte of the file held, a download is abandoned if every further fetch is refused, as the empty
      range is with status 416. */
  lemma {:induction false} LateErrorIsFatal(
    file: Bytes, origin: Origin, aborted: nat -> bool, total: Option<nat>, attempt: nat)
    requires attempt <= MAX_RETRIES && forall k: nat :: attempt <= k <= MAX_RETRIES ==> !Ok(origin(k, |file|))
    ensures Download(origin, aborted, Progress(file, total), attempt) == Thrown
    decreases MAX_RETRIES - attempt
  {
    if !aborted(attempt) && attempt < MAX_RETRIES {
      LateErrorIsFatal(file, origin, aborted, total, attempt + 1);
    }
  }

  /** An origin whose first reply carries the whole file and then breaks off. A later fetch is answered with the
      rest that it asks for, or with the whole file if its range is empty; or it is refused. */
  function LateOrigin(file: Bytes, answers: nat -> bool): Origin {
    (i: nat, offset: nat) =>
      if i == 0 then Reply(200, Stated(|file|), None, Some(Body([file], true)))
      else if answers(i) && 0 < offset < |file| then
        Reply(206, Stated(|file| - offset), Some(|file|), Some(Body([file[offset..]], false)))
      else if answers(i) then Reply(200, Stated(|file|), None, Some(Body([file], false)))
      else Reply(416, Absent, None, None)
  }

  lemma LateOriginIsHonest(file: Bytes, answers: nat -> bool)
    ensures HonestOrigin(file, LateOrigin(file, answers)) && StatingOrigin(file, LateOrigin(file, answers))
    ensures FullFrom(file, LateOrigin(file, answers), 1)
  {
    OneChunk(file);
    forall offset: nat | offset <= |file| ensures Concat([file[offset..]]) == file[offset..] {
      OneChunk(file[offset..]);
    }
  }

  lemma OneChunk(bytes: Bytes)
    ensures Concat([bytes]) == bytes
  {
    assert [bytes][..0] == [];
  }

  lemma LateFirstFetch(file: Bytes, answers: nat -> bool)
    ensures Attempt(NOTHING, LateOrigin(file, answers)(0, 0)) == (Progress(file, Some(|file|)), false)
  {
    OneChunk(file);
  }

  lemma LateAnswers(file: Bytes, answers: nat -> bool)
    ensures AnsweredFrom(LateOrigin(file, answers), 1, |file|) <==> exists k: nat :: 1 <= k <= MAX_RETRIES && answers(k)
  {
    var origin := LateOrigin(file, answers);
    assert forall k: nat :: 1 <= k <= MAX_RETRIES ==> (Ok(origin(k, |file|)) <==> answers(k));
  }

  /** An error after the last byte: the first fetch delivers the whole file, and the download is still thrown
      away if and only if the four fetches that follow are all refused. */
  lemma LateErrorIffRefused(file: Bytes, answers: nat -> bool, aborted: nat -> bool)
    requires file != [] && forall i: nat :: !aborted(i)
    ensures var origin := LateOrigin(file, answers);
      && HonestOrigin(file, origin) && StatingOrigin(file, origin)
      && Attempt(NOTHING, origin(0, 0)) == (Progress(file, Some(|file|)), false)
      && (Download(origin, aborted, NOTHING, 0) == Thrown <==> forall k: nat :: 1 <= k <= MAX_RETRIES ==> !answers(k))
      && (Download(origin, aborted, NOTHING, 0) != Thrown ==> Download(origin, aborted, NOTHING, 0) == Saved(file))
  {
    var origin := LateOrigin(file, answers);
    LateOriginIsHonest(file, answers);
    LateFirstFetch(file, answers);
    LateAnswers(file, answers);
    SavedIffAnswered(file, origin, aborted, Progress(file, Some(|file|)), 1);
  }
}

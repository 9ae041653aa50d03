/** Cutting a file into parts: the part plan the backend computes, the slices the two uploaders send,
    and the sizes they show as progress. */
module Slicing {

  type Bytes = seq<bv8>

  datatype Plan = Plan(totalParts: nat, partSize: nat)

  const MAX_PARTS := 10000

  function Min(a: int, b: int): int {
    if a < b then a else b
  }

  function CeilDiv(a: nat, b: nat): nat
    requires b > 0
  {
    (a + b - 1) / b
  }

  /** The backend's part plan for a file. */
  function CalculateParts(size: nat, minPartSize: nat): Plan
    requires minPartSize > 0
  {
    if size <= minPartSize then Plan(1, size)
    else if CeilDiv(size, minPartSize) > MAX_PARTS then Plan(MAX_PARTS, CeilDiv(size, MAX_PARTS))
    else Plan(CeilDiv(size, minPartSize), minPartSize)
  }

  /** `file.slice(start, end)`: positions past the end are clamped. */
  function Slice(file: Bytes, start: nat, end: int): Bytes {
    if start >= |file| || end <= start then [] else file[start..Min(end, |file|)]
  }

  /** The bytes sent for a part. */
  function PartBytes(file: Bytes, partSize: nat, part: nat): Bytes
    requires part >= 1
  {
    var start := (part - 1) * partSize;
    Slice(file, start, Min(start + partSize, |file|))
  }

  /** Parts 1..n, joined in order. */
  function Joined(file: Bytes, partSize: nat, n: nat): Bytes {
    if n == 0 then [] else Joined(file, partSize, n - 1) + PartBytes(file, partSize, n)
  }

  /** The size the resumable uploader shows for a part. */
  function DisplayedSize(size: nat, plan: Plan, part: nat): int
    requires 1 <= part <= plan.totalParts
  {
    if part == plan.totalParts then size - (part - 1) * plan.partSize else plan.partSize
  }

  /** The bytes the avatar uploader counts when a part completes. */
  function CountedSize(size: nat, partSize: nat, part: nat): int
    requires part >= 1
  {
    Min(partSize, size - (part - 1) * partSize)
  }

  predicate Covers(size: nat, plan: Plan) {
    plan.totalParts >= 1 && plan.totalParts * plan.partSize >= size
  }

  /** The last part does not start beyond the end of the file. */
  predicate Tight(size: nat, plan: Plan) {
    Covers(size, plan) && (plan.totalParts - 1) * plan.partSize <= size
  }

  lemma PartStep(partSize: nat, n: nat)
    requires n >= 1
    ensures n * partSize == (n - 1) * partSize + partSize
  {
  }

  lemma ProductGrows(partSize: nat, m: nat, n: nat)
    requires m <= n
    ensures m * partSize <= n * partSize
  {
  }

  lemma {:induction false} JoinedIsPrefix(file: Bytes, partSize: nat, n: nat)
    ensures Joined(file, partSize, n) == file[..Min(n * partSize, |file|)]
  {
    if n > 0 {
      JoinedIsPrefix(file, partSize, n - 1);
      PartStep(partSize, n);
      var a, b := Min((n - 1) * partSize, |file|), Min(n * partSize, |file|);
      assert PartBytes(file, partSize, n) == file[a..b];
      assert file[..a] + file[a..b] == file[..b];
    }
  }

  /** The slices of all parts join to the original file exactly when the plan covers it. */
  lemma {:induction false} SlicesJoinToFile(file: Bytes, plan: Plan)
    requires plan.totalParts >= 1
    ensures Joined(file, plan.partSize, plan.totalParts) == file <==> Covers(|file|, plan)
  {
    JoinedIsPrefix(file, plan.partSize, plan.totalParts);
    PrefixIsWhole(file, plan.totalParts * plan.partSize);
  }

  lemma PrefixIsWhole(file: Bytes, n: nat)
    ensures file[..Min(n, |file|)] == file <==> n >= |file|
  {
    if n < |file| {
      assert |file[..n]| == n;
    }
  }

  ghost predicate SizesMatch(file: Bytes, plan: Plan) {
    forall k :: 1 <= k <= plan.totalParts ==>
      DisplayedSize(|file|, plan, k) == CountedSize(|file|, plan.partSize, k) == |PartBytes(file, plan.partSize, k)|
  }

  /** Both progress formulas agree with the bytes sent, for every part, exactly for a tight plan. */
  lemma SizesMatchIffTight(file: Bytes, plan: Plan)
    requires Covers(|file|, plan)
    ensures SizesMatch(file, plan) <==> Tight(|file|, plan)
  {
    var last := plan.totalParts;
    PartStep(plan.partSize, last);
    if Tight(|file|, plan) {
      forall k | 1 <= k <= last
        ensures DisplayedSize(|file|, plan, k) == CountedSize(|file|, plan.partSize, k)
          == |PartBytes(file, plan.partSize, k)|
      {
        PartStep(plan.partSize, k);
        if k < last {
          ProductGrows(plan.partSize, k, last - 1);
        }
      }
    } else {
      assert DisplayedSize(|file|, plan, last) < 0 <= |PartBytes(file, plan.partSize, last)|;
    }
  }

  function CountedTotal(size: nat, partSize: nat, n: nat): int {
    if n == 0 then 0 else CountedTotal(size, partSize, n - 1) + CountedSize(size, partSize, n)
  }

  lemma {:induction false} CountedPrefix(size: nat, partSize: nat, n: nat)
    requires n >= 1 ==> (n - 1) * partSize <= size
    ensures CountedTotal(size, partSize, n) == Min(n * partSize, size)
  {
    if n > 0 {
      PartStep(partSize, n);
      if n > 1 {
        ProductGrows(partSize, n - 2, n - 1);
      }
      CountedPrefix(size, partSize, n - 1);
    }
  }

  /** The per-part progress adds up to the file size. */
  lemma ProgressAddsUp(size: nat, plan: Plan)
    requires Tight(size, plan)
    ensures CountedTotal(size, plan.partSize, plan.totalParts) == size
  {
    CountedPrefix(size, plan.partSize, plan.totalParts);
  }

  // ---------------------------------------------------------------- the backend's plan

  lemma CeilBounds(a: nat, b: nat)
    requires b > 0
    ensures (CeilDiv(a, b) - 1) * b < a || a == 0
    ensures a <= CeilDiv(a, b) * b
  {
    var q := (a + b - 1) / b;
    var r := (a + b - 1) % b;
    assert a + b - 1 == q * b + r;
    assert (q - 1) * b == q * b - b;
  }

  lemma PlanCovers(size: nat, minPartSize: nat)
    requires minPartSize > 0
    ensures Covers(size, CalculateParts(size, minPartSize))
    ensures CalculateParts(size, minPartSize).totalParts <= MAX_PARTS
  {
    if size > minPartSize {
      CeilBounds(size, minPartSize);
      CeilBounds(size, MAX_PARTS);
    }
  }

  /** The plan is the least one that the settings allow. A file up to the minimum part size is one part. Otherwise parts
      have the least size, from the minimum on, with which the largest number of parts is enough; at the minimum size no
      part is left over, and a greater one is used only with that number of parts. */
  lemma PlanIsLeast(size: nat, minPartSize: nat)
    requires minPartSize > 0
    ensures var plan := CalculateParts(size, minPartSize);
      if size <= minPartSize then plan == Plan(1, size)
      else
        && plan.partSize >= minPartSize
        && (forall p: nat :: minPartSize <= p < plan.partSize ==> 10000 * p < size)
        && (plan.partSize == minPartSize ==> (plan.totalParts - 1) * minPartSize < size)
        && (plan.partSize > minPartSize ==> plan.totalParts == 10000)
  {
    if size > minPartSize {
      CeilBounds(size, minPartSize);
      CeilBounds(size, MAX_PARTS);
      var parts := CeilDiv(size, minPartSize);
      if parts > MAX_PARTS {
        ProductGrows(minPartSize, MAX_PARTS, parts - 1);
      }
    }
  }

  lemma PlanTight(size: nat, minPartSize: nat)
    requires minPartSize >= 9998
    ensures Tight(size, CalculateParts(size, minPartSize))
  {
    PlanCovers(size, minPartSize);
    if size > minPartSize {
      CeilBounds(size, minPartSize);
      var parts := CeilDiv(size, minPartSize);
      if parts > MAX_PARTS {
        CeilBounds(size, MAX_PARTS);
        ProductGrows(minPartSize, MAX_PARTS, parts - 1);
      }
    }
  }

  /** The smallest file that needs more than 10000 parts is cut into parts of minPartSize + 1 bytes. */
  lemma LoosePlan(minPartSize: nat)
    requires 0 < minPartSize < 9998
    ensures !Tight(10000 * minPartSize + 1, CalculateParts(10000 * minPartSize + 1, minPartSize))
  {
    var size := 10000 * minPartSize + 1;
    CeilBounds(size, minPartSize);
    var parts := CeilDiv(size, minPartSize);
    if parts <= MAX_PARTS {
      ProductGrows(minPartSize, parts, MAX_PARTS);
    }
    assert CeilDiv(size, MAX_PARTS) == minPartSize + 1;
  }

  /** The backend's plan is tight for every file, so that progress is right, exactly when the configured
      minimum part size is at least 9998 bytes. */
  lemma PlanTightIff(minPartSize: nat)
    requires minPartSize > 0
    ensures (forall size: nat :: Tight(size, CalculateParts(size, minPartSize))) <==> minPartSize >= 9998
  {
    if minPartSize >= 9998 {
      forall size: nat ensures Tight(size, CalculateParts(size, minPartSize)) {
        PlanTight(size, minPartSize);
      }
    } else {
      LoosePlan(minPartSize);
    }
  }
}

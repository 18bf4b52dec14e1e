/**
 * The size-targeting quality search of upload/upload.ts (`optimizeAndUpload`).
 *
 * The script re-encodes a photo as JPEG, measures the file in kilobytes, and
 * either accepts the file or calls itself again with a quality one step higher
 * (file too small) or lower (file too large). The encoder is an oracle from the
 * quality actually handed to it to the byte size of what it wrote.
 */
module QualitySearch {
  import opened Strings

  const MinFileSizeKB: nat := 700
  const MaxFileSizeKB: nat := 1000
  const StartingQuality: int := 50
  const QualityIncrement: int := 5
  const QualitySmallerIncrement: int := 2
  const QualityFarPoint: int := 15

  /** The iteration budget, computed from the constants as the script computes it. */
  const NumIterations: real :=
    (Max(StartingQuality, 100 - StartingQuality) - QualityFarPoint) as real / QualityIncrement as real
    + QualityFarPoint as real / QualitySmallerIncrement as real

  /** The budget is not a whole number: an iteration counter exceeds it from 15 on. */
  lemma NumIterationsValue()
    ensures NumIterations == 14.5
  {
  }

  /** A JPEG quality the encoder accepts. */
  type Quality = q: int | 0 <= q <= 100

  /** `Math.min(Math.max(quality, 0), 100)`: the quality handed to the encoder. */
  function ClampQuality(q: int): (r: Quality)
    ensures 0 <= q <= 100 ==> r == q
    ensures q < 0 ==> r == 0
    ensures q > 100 ==> r == 100
  {
    Min(Max(q, 0), 100)
  }

  /**
   * `Math.round(bytes / 1024)` for a byte count, in integers: the nearest whole
   * number of kilobytes, halves rounded up.
   */
  function SizeKB(bytes: nat): (kb: nat)
    ensures kb * 1024 - 512 <= bytes < kb * 1024 + 512
    ensures kb as real - 0.5 <= bytes as real / 1024.0 < kb as real + 0.5
  {
    (bytes + 512) / 1024
  }

  /** The size band the search aims for, bounds included. */
  predicate InBand(kb: nat) {
    MinFileSizeKB <= kb <= MaxFileSizeKB
  }

  /** The acceptance test: past the budget, or in the band. */
  predicate Accepts(iteration: nat, kb: nat) {
    iteration as real > NumIterations || InBand(kb)
  }

  lemma AcceptsIff(iteration: nat, kb: nat)
    ensures Accepts(iteration, kb) <==> iteration >= 15 || 700 <= kb <= 1000
  {
    NumIterationsValue();
  }

  /** The step: coarse strictly between the far points, fine near 0 and 100. */
  function Increment(q: int): (d: int)
    ensures d == QualityIncrement <==> QualityFarPoint < q < 100 - QualityFarPoint
    ensures d == QualityIncrement || d == QualitySmallerIncrement
  {
    if q < 85 && q > 15 then QualityIncrement else QualitySmallerIncrement
  }

  /**
   * The quality of the next attempt after a rejected one: up by a step when the
   * file was too small, down by a step otherwise.
   */
  function NextQuality(q: int, kb: nat): (r: int)
    ensures kb < MinFileSizeKB ==> r > q
    ensures kb > MaxFileSizeKB ==> r < q
    ensures r - q == Increment(q) || q - r == Increment(q)
  {
    if kb < MinFileSizeKB then q + Increment(q) else q - Increment(q)
  }

  /** One encode attempt: the requested quality, the clamped quality used, the size produced. */
  datatype Attempt = Attempt(quality: int, encoded: Quality, kb: nat, iteration: nat)

  function EncodeAt(sizeBytes: Quality -> nat, quality: int, iteration: nat): Attempt {
    var q := ClampQuality(quality);
    Attempt(quality, q, SizeKB(sizeBytes(q)), iteration)
  }

  /**
   * The encode attempts the search makes from `quality` at `iteration`: one per
   * recursive call, the last one accepted.
   */
  function Attempts(sizeBytes: Quality -> nat, quality: int, iteration: nat): (r: seq<Attempt>)
    decreases 15 - iteration
    ensures 1 <= |r|
    ensures r[0].quality == quality && r[0].iteration == iteration
    ensures iteration <= 15 ==> |r| <= 16 - iteration
    ensures Accepts(Last(r).iteration, Last(r).kb)
  {
    var a := EncodeAt(sizeBytes, quality, iteration);
    if Accepts(iteration, a.kb) then [a]
    else
      NumIterationsValue();
      [a] + Attempts(sizeBytes, NextQuality(quality, a.kb), iteration + 1)
  }

  /** The k-th attempt follows from the one before it as the script's recursion does. */
  lemma {:induction false} AttemptsStep(sizeBytes: Quality -> nat, quality: int, iteration: nat, k: nat)
    requires k < |Attempts(sizeBytes, quality, iteration)|
    decreases k
    ensures var r := Attempts(sizeBytes, quality, iteration);
      && r[k].iteration == iteration + k
      && r[k].encoded == ClampQuality(r[k].quality)
      && r[k].kb == SizeKB(sizeBytes(r[k].encoded))
      && (k + 1 < |r| ==> !Accepts(r[k].iteration, r[k].kb) && r[k + 1].quality == NextQuality(r[k].quality, r[k].kb))
      && (k + 1 == |r| ==> Accepts(r[k].iteration, r[k].kb))
  {
    var r := Attempts(sizeBytes, quality, iteration);
    if k > 0 {
      var next := NextQuality(quality, r[0].kb);
      AttemptsStep(sizeBytes, next, iteration + 1, k - 1);
      assert r[1..] == Attempts(sizeBytes, next, iteration + 1);
    }
  }

  /**
   * The search from the script's starting point makes at most 16 attempts. It
   * ends either in the band, or exactly at the 16th attempt (iteration 15); an
   * attempt accepted earlier is always in the band.
   */
  lemma SearchOutcome(sizeBytes: Quality -> nat)
    ensures var r := Attempts(sizeBytes, StartingQuality, 0);
      && |r| <= 16
      && Last(r).iteration == |r| - 1
      && (InBand(Last(r).kb) || |r| == 16)
      && (Last(r).iteration < 15 ==> InBand(Last(r).kb))
  {
    var r := Attempts(sizeBytes, StartingQuality, 0);
    AttemptsStep(sizeBytes, StartingQuality, 0, |r| - 1);
    AcceptsIff(Last(r).iteration, Last(r).kb);
  }

  /** Every rejected attempt before the last was out of the band, below iteration 15. */
  lemma RejectedAttempts(sizeBytes: Quality -> nat, k: nat)
    requires k + 1 < |Attempts(sizeBytes, StartingQuality, 0)|
    ensures var r := Attempts(sizeBytes, StartingQuality, 0);
      && r[k].iteration < 15 && !InBand(r[k].kb)
      && (r[k].kb < MinFileSizeKB ==> r[k + 1].quality > r[k].quality)
      && (r[k].kb > MaxFileSizeKB ==> r[k + 1].quality < r[k].quality)
  {
    var r := Attempts(sizeBytes, StartingQuality, 0);
    AttemptsStep(sizeBytes, StartingQuality, 0, k);
    AcceptsIff(r[k].iteration, r[k].kb);
  }

  /** The quality after n steps in one direction. */
  function Drift(q: int, n: nat, up: bool): int
    decreases n
  {
    if n == 0 then q else Drift(if up then q + Increment(q) else q - Increment(q), n - 1, up)
  }

  /**
   * When every encode is too small (or every one too large), the search never
   * accepts before the budget runs out and drifts one step per attempt.
   */
  lemma {:induction false} DriftingSearch(sizeBytes: Quality -> nat, quality: int, iteration: nat, up: bool)
    requires iteration <= 15
    requires forall q: Quality :: if up then SizeKB(sizeBytes(q)) < MinFileSizeKB else SizeKB(sizeBytes(q)) > MaxFileSizeKB
    decreases 15 - iteration
    ensures var r := Attempts(sizeBytes, quality, iteration);
      |r| == 16 - iteration && Last(r).quality == Drift(quality, 15 - iteration, up)
  {
    var a := EncodeAt(sizeBytes, quality, iteration);
    AcceptsIff(iteration, a.kb);
    if iteration < 15 {
      DriftingSearch(sizeBytes, NextQuality(quality, a.kb), iteration + 1, up);
    }
  }

  /**
   * A photo whose every encode is under 700 KB reaches quality 101 at iteration 15
   * (seven steps of 5 up to 85, then steps of 2), which is clamped to 100; one whose
   * every encode is over 1000 KB reaches -1, clamped to 0.
   */
  lemma QualityLeavesRangeButEncodeDoesNot(sizeBytes: Quality -> nat)
    ensures (forall q: Quality :: SizeKB(sizeBytes(q)) < MinFileSizeKB) ==>
      var r := Attempts(sizeBytes, StartingQuality, 0);
      |r| == 16 && Last(r).quality == 101 && Last(r).encoded == 100
    ensures (forall q: Quality :: SizeKB(sizeBytes(q)) > MaxFileSizeKB) ==>
      var r := Attempts(sizeBytes, StartingQuality, 0);
      |r| == 16 && Last(r).quality == -1 && Last(r).encoded == 0
  {
    if forall q: Quality :: SizeKB(sizeBytes(q)) < MinFileSizeKB {
      DriftToEnd(sizeBytes, true);
      DriftFromStart(true);
    }
    if forall q: Quality :: SizeKB(sizeBytes(q)) > MaxFileSizeKB {
      DriftToEnd(sizeBytes, false);
      DriftFromStart(false);
    }
  }

  /** Drifting a + b steps is drifting a steps, then b more. */
  lemma {:induction false} DriftSplit(q: int, a: nat, b: nat, up: bool)
    decreases a
    ensures Drift(q, a + b, up) == Drift(Drift(q, a, up), b, up)
  {
    if a > 0 {
      DriftSplit(if up then q + Increment(q) else q - Increment(q), a - 1, b, up);
    }
  }

  /** Strictly between the far points, each step is the coarse one. */
  lemma {:induction false} DriftCoarse(q: int, n: nat, up: bool)
    requires n > 0 ==> QualityFarPoint < q < 100 - QualityFarPoint
    requires n > 0 ==> QualityFarPoint < (if up then q + 5 * (n - 1) else q - 5 * (n - 1)) < 100 - QualityFarPoint
    decreases n
    ensures Drift(q, n, up) == if up then q + 5 * n else q - 5 * n
  {
    if n > 0 {
      DriftCoarse(if up then q + 5 else q - 5, n - 1, up);
    }
  }

  /** At or past a far point, moving away from the middle, each step is the fine one. */
  lemma {:induction false} DriftFine(q: int, n: nat, up: bool)
    requires if up then q >= 100 - QualityFarPoint else q <= QualityFarPoint
    decreases n
    ensures Drift(q, n, up) == if up then q + 2 * n else q - 2 * n
  {
    if n > 0 {
      DriftFine(if up then q + 2 else q - 2, n - 1, up);
    }
  }

  /** From 50, seven coarse steps reach a far point and eight fine ones follow: 101, or -1. */
  lemma DriftFromStart(up: bool)
    ensures Drift(StartingQuality, 15, up) == if up then 101 else -1
  {
    DriftSplit(StartingQuality, 7, 8, up);
    DriftCoarse(StartingQuality, 7, up);
    DriftFine(if up then 85 else 15, 8, up);
  }

  /** A one-sided search from the start quality ends on its sixteenth attempt, at the drifted quality. */
  lemma DriftToEnd(sizeBytes: Quality -> nat, up: bool)
    requires up ==> forall q: Quality :: SizeKB(sizeBytes(q)) < MinFileSizeKB
    requires !up ==> forall q: Quality :: SizeKB(sizeBytes(q)) > MaxFileSizeKB
    ensures var r := Attempts(sizeBytes, StartingQuality, 0);
      |r| == 16 && Last(r).quality == Drift(50, 15, up) && Last(r).encoded == ClampQuality(Drift(50, 15, up))
  {
    var r := Attempts(sizeBytes, StartingQuality, 0);
    AttemptsStep(sizeBytes, StartingQuality, 0, |r| - 1);
    DriftingSearch(sizeBytes, StartingQuality, 0, up);
  }
}

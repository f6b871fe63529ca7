/** The analytic curves plotted beside the particle field: for odd radii
    from 1 to 199, skipping the two next to the boundary, the flip function
    `Fr = (r - RS) / 50` and the clamped entropy `min(10, 1 / |Fr + 0.001|)`. */
module GraphData {
  import opened RealMath
  import opened SimConstants

  /** One plotted point. */
  datatype Sample = Sample(r: int, fr: real, entropy: real)

  /** The grid skips radii within 2 of the boundary. */
  predicate Skipped(r: int) {
    Abs(r as real - RS) < 2.0
  }

  /** The flip function: zero at the boundary, negative inside, positive outside. */
  function FlipFunction(r: int): (fr: real)
    ensures fr * 50.0 == r as real - RS
    ensures fr < 0.0 <==> r as real < RS
    ensures fr > 0.0 <==> r as real > RS
  {
    (r as real - RS) / 50.0
  }

  /** The entropy intensity for a flip value. Where `|fr + 0.001|` is zero,
      JavaScript's `1 / 0` is `Infinity` and the `min` gives 10. */
  function Entropy(fr: real): (e: real)
    ensures 0.0 < e <= 10.0
    ensures e == 10.0 <==> Abs(fr + 0.001) <= 0.1
    ensures e < 10.0 ==> e * Abs(fr + 0.001) == 1.0
  {
    var m := Abs(fr + 0.001);
    if m == 0.0 then 10.0 else Min(10.0, 1.0 / m)
  }

  /** The record pushed for a kept radius. */
  function SampleAt(r: int): Sample
  {
    var fr := FlipFunction(r);
    Sample(r, fr, Entropy(fr))
  }

  /** The samples the loop emits from radius `r` on, in order. */
  function SamplesFrom(r: int): seq<Sample>
    decreases 201 - r
  {
    if r > 200 then []
    else if Skipped(r) then SamplesFrom(r + 2)
    else [SampleAt(r)] + SamplesFrom(r + 2)
  }

  /** The odd integer radii are never at a zero of `|Fr + 0.001|`, so the
      division in the sampler is always defined. */
  lemma OffsetNonZero(r: int)
    ensures FlipFunction(r) + 0.001 != 0.0
  {
  }

  /** The loop of the sampler: radii 1, 3, ..., 199, skipping the band
      around the boundary, each kept radius pushed with its two values. */
  method GenerateGraphData() returns (data: seq<Sample>)
    ensures data == SamplesFrom(1)
    ensures |data| == 98
    ensures forall i :: 0 <= i < |data| ==> Kept(1, data[i].r) && SampleFacts(data[i])
    ensures forall i, j :: 0 <= i < j < |data| ==> data[i].r < data[j].r
  {
    data := [];
    var r := 1;
    while r <= 200
      invariant data + SamplesFrom(r) == SamplesFrom(1)
      decreases 201 - r
    {
      if Abs(r as real - RS) < 2.0 {
        r := r + 2;
        continue;
      }
      var fr := (r as real - RS) / 50.0;
      OffsetNonZero(r);
      var entropy := Min(10.0, 1.0 / Abs(fr + 0.001));
      data := data + [Sample(r, fr, entropy)];
      r := r + 2;
    }
    GraphDataFacts();
  }

  /** Among the odd radii, exactly 99 and 101 are skipped. */
  lemma SkippedOdd(r: int)
    requires r % 2 == 1
    ensures Skipped(r) <==> r == 99 || r == 101
  {
  }

  /** The number of samples from an odd radius `start` on: one per odd
      radius up to 199, less the skipped ones not yet passed. */
  lemma {:induction false} SamplesLength(start: int)
    requires start % 2 == 1 && start <= 201
    ensures |SamplesFrom(start)| == (201 - start) / 2 - (if start <= 99 then 2 else if start <= 101 then 1 else 0)
    decreases 201 - start
  {
    if start <= 200 {
      SkippedOdd(start);
      SamplesLength(start + 2);
    }
  }

  /** A radius the sampler keeps: odd, in [lo, 199], not 99 or 101. */
  predicate Kept(lo: int, r: int) {
    lo <= r <= 199 && r % 2 == 1 && r != 99 && r != 101
  }

  /** Every sample from an odd radius `start` on sits at a kept radius and
      carries that radius's flip and entropy values. */
  lemma {:induction false} SamplesKept(start: int)
    requires start % 2 == 1
    ensures forall i :: 0 <= i < |SamplesFrom(start)| ==>
              Kept(start, SamplesFrom(start)[i].r) && SamplesFrom(start)[i] == SampleAt(SamplesFrom(start)[i].r)
    decreases 201 - start
  {
    if start <= 200 {
      SkippedOdd(start);
      SamplesKept(start + 2);
    }
  }

  /** The samples from `start` on are in strictly increasing radius order. */
  lemma {:induction false} SamplesIncreasing(start: int)
    requires start % 2 == 1
    ensures forall i, j :: 0 <= i < j < |SamplesFrom(start)| ==> SamplesFrom(start)[i].r < SamplesFrom(start)[j].r
    decreases 201 - start
  {
    if start <= 200 {
      SamplesKept(start + 2);
      SamplesIncreasing(start + 2);
    }
  }

  /** Some sample in `ss` is at radius `r`. */
  ghost predicate Covers(ss: seq<Sample>, r: int) {
    exists i :: 0 <= i < |ss| && ss[i].r == r
  }

  /** Every kept radius from `start` on has a sample. */
  lemma {:induction false} SamplesComplete(start: int)
    requires start % 2 == 1
    ensures forall r :: Kept(start, r) ==> Covers(SamplesFrom(start), r)
    decreases 201 - start
  {
    if start <= 200 {
      SamplesComplete(start + 2);
      var tail := SamplesFrom(start + 2);
      var all := SamplesFrom(start);
      forall r | Kept(start, r)
        ensures Covers(all, r)
      {
        if r == start {
          SkippedOdd(start);
          assert all[0].r == r;
        } else {
          assert r - start >= 2 by {
            assert (r - start) % 2 == 0;
          }
          assert Kept(start + 2, r);
          var i :| 0 <= i < |tail| && tail[i].r == r;
          if Skipped(start) {
            assert all[i].r == r;
          } else {
            assert all[i + 1].r == r;
          }
        }
      }
    }
  }

  /** The sampler's output: 98 samples, exactly at the kept radii 1..199
      and in strictly increasing order; every `Fr` is `(r - RS) / 50` with
      the sign of `r - RS`, `Fr + 0.001` is never zero, and every entropy is
      `min(10, 1 / |Fr + 0.001|)` and lies in `(0, 10]`. */
  lemma GraphDataFacts()
    ensures |SamplesFrom(1)| == 98
    ensures forall i :: 0 <= i < 98 ==> Kept(1, SamplesFrom(1)[i].r)
    ensures forall i, j :: 0 <= i < j < 98 ==> SamplesFrom(1)[i].r < SamplesFrom(1)[j].r
    ensures forall r :: Kept(1, r) ==> Covers(SamplesFrom(1), r)
    ensures forall i :: 0 <= i < 98 ==> SampleFacts(SamplesFrom(1)[i])
  {
    SamplesLength(1);
    SamplesKept(1);
    SamplesIncreasing(1);
    SamplesComplete(1);
    var all := SamplesFrom(1);
    forall i | 0 <= i < 98
      ensures SampleFacts(all[i])
    {
      OffsetNonZero(all[i].r);
    }
  }

  /** The value facts of one plotted point. */
  predicate SampleFacts(s: Sample) {
    s.fr * 50.0 == s.r as real - RS &&
    (s.fr < 0.0 <==> s.r < 100) && (s.fr > 0.0 <==> s.r > 100) &&
    s.fr + 0.001 != 0.0 && s.entropy == Min(10.0, 1.0 / Abs(s.fr + 0.001)) &&
    0.0 < s.entropy <= 10.0
  }
}

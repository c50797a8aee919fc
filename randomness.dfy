/**
 * `Math.random()` made an explicit input: every call consumes the next element
 * of a supplied sequence of draws, each in [0, 1). Also the rounding and
 * index arithmetic the generators apply to a draw.
 */
module Randomness {
  import opened Seqs

  predicate IsDraw(r: real) { 0.0 <= r < 1.0 }

  predicate AreDraws(draws: seq<real>) {
    forall i :: 0 <= i < |draws| ==> IsDraw(draws[i])
  }

  /** `Math.floor(Math.random() * n)`: an index into a list of length `n`. */
  function RandomIndex(r: real, n: nat): (i: nat)
    requires IsDraw(r) && n > 0
    ensures i < n
  {
    assert r * (n as real) < n as real by {
      assert r * (n as real) < 1.0 * (n as real);
    }
    (r * n as real).Floor
  }

  /** `Math.floor(Math.random() * span) + min`: an integer in [min, min + span). */
  function RandomInt(r: real, min: int, span: nat): (v: int)
    requires IsDraw(r) && span > 0
    ensures min <= v < min + span
  {
    RandomIndex(r, span) + min
  }

  /** `Math.round(x)`: the nearest integer, halves rounded up. */
  function Round(x: real): int {
    (x + 0.5).Floor
  }

  /** Rounding never leaves an interval whose ends are whole numbers. */
  lemma RoundWithin(x: real, lo: int, hi: int)
    requires lo as real <= x <= hi as real
    ensures lo <= Round(x) <= hi
  {
  }

  /** Rounding moves a value by at most one half. */
  lemma RoundClose(x: real)
    ensures x - 0.5 < Round(x) as real <= x + 0.5
  {
  }

  lemma RoundMonotone(x: real, y: real)
    requires x <= y
    ensures Round(x) <= Round(y)
  {
  }

  /** The elements `vocab[Math.floor(Math.random() * vocab.length)]` drawn with `draws`, one per draw. */
  function Picks<T>(vocab: seq<T>, draws: seq<real>): (picks: seq<T>)
    requires |vocab| > 0 && AreDraws(draws)
    ensures |picks| == |draws|
    ensures forall i :: 0 <= i < |picks| ==> picks[i] in vocab
  {
    if draws == [] then []
    else Picks(vocab, draws[..|draws| - 1]) + [vocab[RandomIndex(draws[|draws| - 1], |vocab|)]]
  }

  /**
   * The loop that draws `n` times from `vocab` and appends a drawn element only
   * when it is not already present (campaign tags, seed genres).
   */
  method DrawDistinct<T(==)>(vocab: seq<T>, draws: seq<real>, n: nat) returns (picked: seq<T>)
    requires |vocab| > 0 && AreDraws(draws) && n <= |draws|
    ensures picked == Dedup(Picks(vocab, draws[..n]))
    ensures NoDuplicates(picked)
    ensures forall x :: x in picked ==> x in vocab
    ensures forall x :: x in Picks(vocab, draws[..n]) ==> x in picked
    ensures |picked| <= n && (n > 0 ==> |picked| >= 1)
  {
    picked := [];
    var i := 0;
    while i < n
      invariant 0 <= i <= n
      invariant picked == Dedup(Picks(vocab, draws[..i]))
    {
      var x := vocab[RandomIndex(draws[i], |vocab|)];
      if x !in picked {
        picked := picked + [x];
      }
      assert draws[..i + 1][..i] == draws[..i];
      i := i + 1;
    }
    DedupProperties(Picks(vocab, draws[..n]));
  }
}

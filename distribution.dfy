/**
 * The arithmetic of a prediction: Python's `sum`, the normalisation
 * `[p / total for p in probs]`, and the dictionary
 * `{name.capitalize(): p for name, p in zip(names, probs)}`.
 * Probabilities are exact reals.
 */
module Distribution {
  import opened Ascii

  function Min(a: nat, b: nat): nat { if a <= b then a else b }

  /** `sum(xs)`, adding from the left. */
  function Sum(xs: seq<real>): (s: real)
    ensures AllNonNegative(xs) ==> s >= 0.0
  {
    if xs == [] then 0.0 else Sum(xs[..|xs| - 1]) + xs[|xs| - 1]
  }

  /** `[x / total for x in xs]`. */
  function Normalise(xs: seq<real>, total: real): (ys: seq<real>)
    requires total != 0.0
    ensures |ys| == |xs|
    ensures forall i :: 0 <= i < |xs| ==> ys[i] == xs[i] / total
  {
    seq(|xs|, i requires 0 <= i < |xs| => xs[i] / total)
  }

  predicate AllNonNegative(xs: seq<real>) { forall i :: 0 <= i < |xs| ==> xs[i] >= 0.0 }

  predicate AllPositive(xs: seq<real>) { forall i :: 0 <= i < |xs| ==> xs[i] > 0.0 }

  /** Dividing every term by `t` divides the sum by `t`. */
  lemma {:induction false} SumNormalise(xs: seq<real>, t: real)
    requires t != 0.0
    ensures Sum(Normalise(xs, t)) == Sum(xs) / t
  {
    if xs != [] {
      var n := |xs|;
      var ys := Normalise(xs, t);
      assert ys[..n - 1] == Normalise(xs[..n - 1], t);
      SumNormalise(xs[..n - 1], t);
      DivideSum(Sum(xs[..n - 1]), xs[n - 1], t);
    }
  }

  lemma DivideSum(a: real, b: real, t: real)
    requires t != 0.0
    ensures a / t + b / t == (a + b) / t
  {
  }

  lemma DivideSelf(a: real)
    requires a != 0.0
    ensures a / a == 1.0
  {
  }

  /** Normalising by the sum gives values that add up to exactly one. */
  lemma NormalisedSumIsOne(xs: seq<real>)
    requires Sum(xs) != 0.0
    ensures Sum(Normalise(xs, Sum(xs))) == 1.0
  {
    SumNormalise(xs, Sum(xs));
    DivideSelf(Sum(xs));
  }

  /** With no negative terms, every term is at most the sum, and the sum is not negative. */
  lemma {:induction false} TermAtMostSum(xs: seq<real>)
    requires AllNonNegative(xs)
    ensures Sum(xs) >= 0.0
    ensures forall i :: 0 <= i < |xs| ==> xs[i] <= Sum(xs)
  {
    if xs != [] {
      TermAtMostSum(xs[..|xs| - 1]);
      assert forall i :: 0 <= i < |xs| - 1 ==> xs[..|xs| - 1][i] == xs[i];
    }
  }

  /** A sum of non-negative terms is zero exactly when every term is zero. */
  lemma SumZeroIffAllZero(xs: seq<real>)
    requires AllNonNegative(xs)
    ensures Sum(xs) == 0.0 <==> forall i :: 0 <= i < |xs| ==> xs[i] == 0.0
  {
    TermAtMostSum(xs);
    if forall i :: 0 <= i < |xs| ==> xs[i] == 0.0 {
      SumOfZeros(xs);
    }
  }

  lemma {:induction false} SumOfZeros(xs: seq<real>)
    requires forall i :: 0 <= i < |xs| ==> xs[i] == 0.0
    ensures Sum(xs) == 0.0
  {
    if xs != [] {
      SumOfZeros(xs[..|xs| - 1]);
    }
  }

  /** Non-negative terms with a positive sum normalise into [0, 1]; positive terms into (0, 1]. */
  lemma NormalisedInUnitInterval(xs: seq<real>)
    requires AllNonNegative(xs) && Sum(xs) > 0.0
    ensures forall i :: 0 <= i < |xs| ==> 0.0 <= Normalise(xs, Sum(xs))[i] <= 1.0
    ensures AllPositive(xs) ==> forall i :: 0 <= i < |xs| ==> 0.0 < Normalise(xs, Sum(xs))[i]
  {
    TermAtMostSum(xs);
    var s := Sum(xs);
    forall i | 0 <= i < |xs| ensures 0.0 <= xs[i] / s <= 1.0 {
      DivideBelowOne(xs[i], s);
    }
  }

  lemma DivideBelowOne(x: real, s: real)
    requires 0.0 <= x <= s && s > 0.0
    ensures 0.0 <= x / s <= 1.0
  {
  }

  /**
   * The dictionary built from `zip(names, probs)` with capitalised keys. `zip`
   * stops at the shorter list, and a later pair overwrites an earlier one with
   * the same key.
   */
  function LabelMap(names: seq<string>, probs: seq<real>): (m: map<string, real>)
    ensures m.Keys == set i | 0 <= i < Min(|names|, |probs|) :: Capitalize(names[i])
    decreases |names|
  {
    var n := Min(|names|, |probs|);
    if n == 0 then map[]
    else LabelMap(names[..n - 1], probs[..n - 1])[Capitalize(names[n - 1]) := probs[n - 1]]
  }

  /** No two labels share a capitalised form, so no pair of the zip is overwritten. */
  predicate DistinctKeys(names: seq<string>)
  {
    forall i, j :: 0 <= i < j < |names| ==> Capitalize(names[i]) != Capitalize(names[j])
  }

  /** The dictionary has at most one key per pair of the zip. */
  lemma {:induction false} LabelMapSize(names: seq<string>, probs: seq<real>)
    ensures |LabelMap(names, probs)| <= Min(|names|, |probs|)
    decreases |names|
  {
    var n := Min(|names|, |probs|);
    if n > 0 {
      LabelMapSize(names[..n - 1], probs[..n - 1]);
    }
  }

  /** A key is mapped to the probability of the last pair that produced it. */
  lemma {:induction false} LabelMapLastWins(names: seq<string>, probs: seq<real>, i: nat)
    requires i < Min(|names|, |probs|)
    requires forall j :: i < j < Min(|names|, |probs|) ==> Capitalize(names[j]) != Capitalize(names[i])
    ensures LabelMap(names, probs)[Capitalize(names[i])] == probs[i]
    decreases |names|
  {
    var n := Min(|names|, |probs|);
    if i < n - 1 {
      LabelMapLastWins(names[..n - 1], probs[..n - 1], i);
    }
  }

  /** Every value in the dictionary is one of the zipped probabilities. */
  lemma {:induction false} LabelMapValuesFromProbs(names: seq<string>, probs: seq<real>, k: string)
    requires k in LabelMap(names, probs)
    ensures exists i :: 0 <= i < Min(|names|, |probs|) && LabelMap(names, probs)[k] == probs[i]
    decreases |names|
  {
    var n := Min(|names|, |probs|);
    if k != Capitalize(names[n - 1]) {
      LabelMapValuesFromProbs(names[..n - 1], probs[..n - 1], k);
      var i :| 0 <= i < n - 1 && LabelMap(names[..n - 1], probs[..n - 1])[k] == probs[..n - 1][i];
      assert LabelMap(names, probs)[k] == probs[i];
    }
  }

  /** With distinct keys, dictionary entry i holds exactly probability i, and there is one entry per pair. */
  lemma {:induction false} LabelMapDistinct(names: seq<string>, probs: seq<real>)
    requires DistinctKeys(names)
    ensures |LabelMap(names, probs)| == Min(|names|, |probs|)
    ensures forall i :: 0 <= i < Min(|names|, |probs|) ==> LabelMap(names, probs)[Capitalize(names[i])] == probs[i]
    decreases |names|
  {
    var n := Min(|names|, |probs|);
    if n > 0 {
      var prefix := names[..n - 1];
      assert DistinctKeys(prefix) by {
        forall i, j | 0 <= i < j < |prefix| ensures Capitalize(prefix[i]) != Capitalize(prefix[j]) {
          assert prefix[i] == names[i] && prefix[j] == names[j];
        }
      }
      LabelMapDistinct(prefix, probs[..n - 1]);
      assert Capitalize(names[n - 1]) !in LabelMap(prefix, probs[..n - 1]);
      forall i | 0 <= i < n ensures LabelMap(names, probs)[Capitalize(names[i])] == probs[i] {
        LabelMapLastWins(names, probs, i);
      }
    }
  }

  /** The dictionary's values, read in the order of the capitalised `names`. */
  function ValuesInOrder(m: map<string, real>, names: seq<string>): (vs: seq<real>)
    requires forall i :: 0 <= i < |names| ==> Capitalize(names[i]) in m
    ensures |vs| == |names|
  {
    seq(|names|, i requires 0 <= i < |names| => m[Capitalize(names[i])])
  }

  /** With distinct keys and one probability per name, reading the dictionary back in order gives the probabilities. */
  lemma LabelMapInOrder(names: seq<string>, probs: seq<real>)
    requires DistinctKeys(names) && |names| == |probs|
    ensures forall i :: 0 <= i < |names| ==> Capitalize(names[i]) in LabelMap(names, probs)
    ensures ValuesInOrder(LabelMap(names, probs), names) == probs
  {
    LabelMapDistinct(names, probs);
  }
}

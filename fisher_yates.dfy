/**
 * The in-place Knuth (Fisher-Yates) shuffle that server.js installs as
 * Array.prototype.shuffle. The random draw of each step is supplied by the
 * caller: draws[i] is the index picked at the step for position i, and it lies
 * in [0, i], as Math.floor(Math.random() * (i + 1)) does.
 */
module FisherYates {

  /** The draws form a legal random tape for an array of length n. */
  predicate ValidDraws(draws: seq<nat>, n: nat) {
    |draws| == n && forall i :: 0 <= i < n ==> draws[i] <= i
  }

  /** One step of the loop: position r receives s[i], and position i receives s[r]. */
  function Swap<T>(s: seq<T>, i: nat, r: nat): (t: seq<T>)
    requires i < |s| && r < |s|
    ensures |t| == |s| && t[i] == s[r] && t[r] == s[i]
    ensures forall k :: 0 <= k < |s| && k != i && k != r ==> t[k] == s[k]
    ensures multiset(t) == multiset(s)
  {
    s[r := s[i]][i := s[r]]
  }

  /**
   * The array after the loop has run the steps for positions |s| - 1 down to k
   * (k == |s| means no step yet).
   */
  function ShuffledFrom<T>(s: seq<T>, draws: seq<nat>, k: nat): (t: seq<T>)
    requires ValidDraws(draws, |s|) && k <= |s|
    ensures |t| == |s|
    ensures multiset(t) == multiset(s)
    decreases |s| - k
  {
    if k == |s| then s else Swap(ShuffledFrom(s, draws, k + 1), k, draws[k])
  }

  /** The array after the whole loop: a permutation of the input. */
  function Shuffled<T>(s: seq<T>, draws: seq<nat>): (t: seq<T>)
    requires ValidDraws(draws, |s|)
    ensures |t| == |s|
    ensures multiset(t) == multiset(s)
  {
    ShuffledFrom(s, draws, 0)
  }

  /**
   * Once the step for position j has run, position j is never written again:
   * every later step k < j swaps only positions k and draws[k] <= k.
   */
  lemma {:induction false} SuffixSettled<T>(s: seq<T>, draws: seq<nat>, k: nat, j: nat)
    requires ValidDraws(draws, |s|) && k <= j < |s|
    ensures ShuffledFrom(s, draws, k)[j] == ShuffledFrom(s, draws, j)[j]
    decreases j - k
  {
    if k < j {
      SuffixSettled(s, draws, k + 1, j);
    }
  }

  /** The step for position k changes at most positions k and draws[k]. */
  lemma StepChangesTwoSlots<T>(s: seq<T>, draws: seq<nat>, k: nat, m: nat)
    requires ValidDraws(draws, |s|) && k < |s| && m < |s| && m != k && m != draws[k]
    ensures ShuffledFrom(s, draws, k)[m] == ShuffledFrom(s, draws, k + 1)[m]
  {
  }

  /**
   * Drawing the position itself at every step leaves the array as it was
   * (the shuffle can return the input order).
   */
  lemma {:induction false} IdentityDrawsKeepOrder<T>(s: seq<T>, draws: seq<nat>, k: nat)
    requires ValidDraws(draws, |s|) && k <= |s|
    requires forall i :: 0 <= i < |s| ==> draws[i] == i
    ensures ShuffledFrom(s, draws, k) == s
    decreases |s| - k
  {
    if k < |s| {
      IdentityDrawsKeepOrder(s, draws, k + 1);
    }
  }

  /**
   * The shuffle itself: walks i from the last index down to 0 and swaps slot i
   * with slot draws[i]. Every access is in bounds because draws[i] <= i < a.Length.
   */
  method Shuffle<T>(a: array<T>, draws: seq<nat>)
    requires ValidDraws(draws, a.Length)
    modifies a
    ensures a[..] == Shuffled(old(a[..]), draws)
    ensures multiset(a[..]) == multiset(old(a[..]))
  {
    var i := a.Length - 1;
    while i >= 0
      invariant -1 <= i < a.Length
      invariant a[..] == ShuffledFrom(old(a[..]), draws, i + 1)
    {
      ghost var before := a[..];
      var randomIndex := draws[i];
      var itemAtIndex := a[randomIndex];
      a[randomIndex] := a[i];
      a[i] := itemAtIndex;
      assert a[..] == Swap(before, i, randomIndex);
      i := i - 1;
    }
  }
}

/**
 * The quiz's `shuffleArray`: Durstenfeld's in-place Fisher-Yates shuffle. The
 * random draws `Math.floor(Math.random() * (i + 1))` are a parameter: entry i
 * of `choices` is the index drawn on the iteration for position i.
 */
module Shuffle {

  /** A draw for every position i lies in [0, i], as `Math.floor(Math.random() * (i + 1))` does. */
  predicate ValidChoices(choices: seq<nat>, n: nat)
  {
    |choices| == n && forall i :: 0 <= i < n ==> choices[i] <= i
  }

  /** Exchange two cells. */
  function Swap<T>(s: seq<T>, i: nat, j: nat): (r: seq<T>)
    requires i < |s| && j < |s|
    ensures |r| == |s| && r[i] == s[j] && r[j] == s[i]
    ensures forall k :: 0 <= k < |s| && k != i && k != j ==> r[k] == s[k]
    ensures multiset(r) == multiset(s)
  {
    s[i := s[j]][j := s[i]]
  }

  /**
   * The sequence after the iterations for positions |s|-1 down to `from`
   * have run (iterations go from the top index downwards).
   */
  function SwapsFrom<T>(s: seq<T>, choices: seq<nat>, from: nat): (r: seq<T>)
    requires ValidChoices(choices, |s|)
    ensures |r| == |s|
    ensures multiset(r) == multiset(s)
    decreases |s| - from
  {
    if from >= |s| then s
    else Swap(SwapsFrom(s, choices, from + 1), from, choices[from])
  }

  /** The whole shuffle: the loop runs for i = |s|-1 down to 1. */
  function Shuffled<T>(s: seq<T>, choices: seq<nat>): (r: seq<T>)
    requires ValidChoices(choices, |s|)
    ensures |r| == |s| && multiset(r) == multiset(s)
  {
    SwapsFrom(s, choices, 1)
  }

  /** The shuffle rearranges and never loses or invents an element. */
  lemma ShuffledIsPermutation<T>(s: seq<T>, choices: seq<nat>)
    requires ValidChoices(choices, |s|)
    ensures |Shuffled(s, choices)| == |s|
    ensures multiset(Shuffled(s, choices)) == multiset(s)
  {
  }

  /** One more iteration swaps position `from` with its draw in the result of the later ones. */
  lemma SwapsFromStep<T>(s: seq<T>, choices: seq<nat>, from: nat)
    requires ValidChoices(choices, |s|) && from < |s|
    ensures choices[from] <= from
    ensures SwapsFrom(s, choices, from) == Swap(SwapsFrom(s, choices, from + 1), from, choices[from])
  {
  }

  /** The in-place shuffle of `shuffleArray`, swapping cells from the top index down. */
  method ShuffleArray<T>(a: array<T>, choices: seq<nat>)
    requires ValidChoices(choices, a.Length)
    modifies a
    ensures a[..] == Shuffled(old(a[..]), choices)
    ensures multiset(a[..]) == multiset(old(a[..]))
  {
    var i := a.Length - 1;
    while i > 0
      invariant -1 <= i < a.Length
      invariant a[..] == SwapsFrom(old(a[..]), choices, (i + 1) as nat)
    {
      var j := choices[i];
      ghost var before := a[..];
      SwapsFromStep(old(a[..]), choices, i);
      a[i], a[j] := a[j], a[i];
      assert a[..] == Swap(before, i, j);
      i := i - 1;
    }
  }
}

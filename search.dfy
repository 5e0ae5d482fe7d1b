/** Positions of the first and last flagged entry, in iteration order. */
module Search {
  import opened Options

  predicate Any(flags: seq<bool>)
  {
    exists k :: 0 <= k < |flags| && flags[k]
  }

  /** The lowest index whose flag is set, if any. */
  function FirstTrue(flags: seq<bool>): (r: Option<nat>)
    ensures r.None? <==> !Any(flags)
    ensures r.Some? ==> r.value < |flags| && flags[r.value]
    ensures r.Some? ==> forall j :: 0 <= j < r.value ==> !flags[j]
    decreases |flags|
  {
    if flags == [] then None
    else if flags[0] then Some(0)
    else match FirstTrue(flags[1..])
      case None => None
      case Some(k) => Some(k + 1)
  }

  /** The highest index whose flag is set, if any. */
  function LastTrue(flags: seq<bool>): (r: Option<nat>)
    ensures r.None? <==> !Any(flags)
    ensures r.Some? ==> r.value < |flags| && flags[r.value]
    ensures r.Some? ==> forall j :: r.value < j < |flags| ==> !flags[j]
    decreases |flags|
  {
    if flags == [] then None
    else if flags[|flags| - 1] then Some(|flags| - 1)
    else LastTrue(flags[..|flags| - 1])
  }

  /** Some flag of a prefix one longer is set exactly when one of the shorter prefix is, or the new one. */
  lemma AnyExtend(flags: seq<bool>, i: nat)
    requires i < |flags|
    ensures Any(flags[..i + 1]) <==> Any(flags[..i]) || flags[i]
  {
    if Any(flags[..i]) {
      var k :| 0 <= k < i && flags[..i][k];
      assert flags[..i + 1][k];
    }
    if flags[i] {
      assert flags[..i + 1][i];
    }
  }

  /** Scanning one more flag keeps the first hit already found. */
  lemma FirstTrueExtend(flags: seq<bool>, i: nat)
    requires i < |flags|
    ensures FirstTrue(flags[..i + 1]) ==
      if Any(flags[..i]) then FirstTrue(flags[..i]) else if flags[i] then Some(i) else None
  {
    var a, b := FirstTrue(flags[..i + 1]), FirstTrue(flags[..i]);
    if Any(flags[..i]) {
      assert flags[..i + 1][b.value] == flags[..i][b.value];
    } else if flags[i] {
      assert flags[..i + 1][i];
    }
  }

  /** Scanning one more flag moves the last hit there if it is set. */
  lemma LastTrueExtend(flags: seq<bool>, i: nat)
    requires i < |flags|
    ensures LastTrue(flags[..i + 1]) == if flags[i] then Some(i) else LastTrue(flags[..i])
  {
    assert flags[..i + 1][..i] == flags[..i];
  }
}

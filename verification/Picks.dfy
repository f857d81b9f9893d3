/** Entries of a log, named by their places in it. */
module Picks {
  ghost predicate Rising(s: seq<nat>) {
    forall i, j :: 0 <= i < j < |s| ==> s[i] < s[j]
  }

  ghost predicate Below(s: seq<nat>, n: nat) {
    forall i :: 0 <= i < |s| ==> s[i] < n
  }

  ghost function Pick<T>(log: seq<T>, at: seq<nat>): (r: seq<T>)
    requires Below(at, |log|)
    ensures |r| == |at| && forall i :: 0 <= i < |at| ==> r[i] == log[at[i]]
  {
    seq(|at|, i requires 0 <= i < |at| => log[at[i]])
  }

  lemma RisingPrefix(a: seq<nat>, b: seq<nat>, n: nat)
    requires Rising(a + b) && Below(a + b, n)
    ensures Rising(a) && Below(a, n)
  {
    assert a == (a + b)[..|a|];
  }

  lemma PickAppend<T>(log: seq<T>, at: seq<nat>, last: nat)
    requires Below(at, |log|) && last < |log|
    ensures Below(at + [last], |log|) && Pick(log, at + [last]) == Pick(log, at) + [log[last]]
  {
  }

  lemma PickRest<T>(log: seq<T>, at: seq<nat>)
    requires at != [] && Below(at, |log|)
    ensures at[0] < |log| && Pick(log, at)[0] == log[at[0]]
    ensures Below(at[1..], |log|) && Pick(log, at[1..]) == Pick(log, at)[1..]
  {
  }

  lemma PickLonger<T>(log: seq<T>, more: seq<T>, at: seq<nat>)
    requires Below(at, |log|)
    ensures Below(at, |log + more|) && Pick(log + more, at) == Pick(log, at)
  {
  }

  /** As many rising places as there are entries are all places. */
  lemma {:induction false} RisingFull(at: seq<nat>)
    requires Rising(at) && Below(at, |at|)
    ensures forall i :: 0 <= i < |at| ==> at[i] == i
  {
    if at != [] {
      var last := |at| - 1;
      assert forall i :: 0 <= i < last ==> at[i] < at[last] <= last;
      RisingFull(at[..last]);
      assert last > 0 ==> at[last - 1] == at[..last][last - 1];
    }
  }

  lemma PickAll<T>(log: seq<T>, at: seq<nat>)
    requires Rising(at) && Below(at, |log|) && |at| == |log|
    ensures Pick(log, at) == log
  {
    RisingFull(at);
  }
}

/** What it means for a sequence to be what a condition picks of another one, each element put as a function has it. */
module Picking {
  /** How many of the first k elements are picked. */
  ghost function Picked<T(!new)>(s: seq<T>, pick: T -> bool, k: nat): nat
    requires k <= |s|
  {
    if k == 0 then 0 else Picked(s, pick, k - 1) + if pick(s[k - 1]) then 1 else 0
  }

  /** out has one element for each picked one, in order, and nothing else. */
  ghost predicate Picks<T(!new), U>(s: seq<T>, pick: T -> bool, put: T -> U, out: seq<U>) {
    && |out| == Picked(s, pick, |s|)
    && forall k :: 0 <= k < |s| && pick(s[k]) ==>
         Picked(s, pick, k) < |out| && out[Picked(s, pick, k)] == put(s[k])
  }

  lemma {:induction false} PickedAgree<T(!new)>(s: seq<T>, x: T, pick: T -> bool, k: nat)
    requires k <= |s|
    ensures Picked(s + [x], pick, k) == Picked(s, pick, k)
  {
    if k > 0 {
      PickedAgree(s, x, pick, k - 1);
    }
  }

  lemma PicksNothing<T(!new), U>(pick: T -> bool, put: T -> U)
    ensures Picks([], pick, put, [])
  {
  }

  lemma PicksNext<T(!new), U>(s: seq<T>, x: T, pick: T -> bool, put: T -> U, out: seq<U>)
    requires Picks(s, pick, put, out)
    ensures Picks(s + [x], pick, put, if pick(x) then out + [put(x)] else out)
  {
    var t := s + [x];
    PickedAgree(s, x, pick, |s|);
    forall k | 0 <= k < |t| && pick(t[k])
      ensures Picked(t, pick, k) < |out| + 1
      ensures k < |s| ==> Picked(t, pick, k) < |out| && out[Picked(t, pick, k)] == put(t[k])
    {
      PickedAgree(s, x, pick, k);
    }
  }
}

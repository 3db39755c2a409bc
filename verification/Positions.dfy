// Positions in a list: how a picked list is tied to the list it comes from.
module Positions {

  /** Positions below n, each above the one before. */
  predicate Increasing(ks: seq<nat>, n: nat) {
    && (forall j :: 0 <= j < |ks| ==> ks[j] < n)
    && (forall i, j :: 0 <= i < j < |ks| ==> ks[i] < ks[j])
  }

  /** The picked list has, in order, the right element for each of the marked positions below n, and no other. */
  ghost predicate Picks<U(!new)>(n: nat, marked: nat -> bool, right: (nat, U) -> bool, ks: seq<nat>, picked: seq<U>) {
    && Increasing(ks, n) && |picked| == |ks|
    && (forall j :: 0 <= j < |ks| ==> right(ks[j], picked[j]))
    && (forall k: nat :: k < n ==> (k in ks <==> marked(k)))
  }

  /** One more position. */
  lemma PicksOn<U(!new)>(n: nat, marked: nat -> bool, right: (nat, U) -> bool, ks: seq<nat>, picked: seq<U>, u: U)
    requires Picks(n, marked, right, ks, picked) && (marked(n) ==> right(n, u))
    ensures if marked(n) then Picks(n + 1, marked, right, ks + [n], picked + [u])
            else Picks(n + 1, marked, right, ks, picked)
  {
    assert forall k: nat :: k in ks + [n] <==> k in ks || k == n;
  }

  /** Part k + 1 is part k, with the right element for position k at its end if k is marked. */
  ghost predicate PartOn<U(!new)>(marked: nat -> bool, right: (nat, U) -> bool, part: nat -> seq<U>, k: nat) {
    if marked(k) then
      && |part(k + 1)| > 0 && part(k + 1)[..|part(k + 1)| - 1] == part(k)
      && right(k, part(k + 1)[|part(k + 1)| - 1])
    else part(k + 1) == part(k)
  }

  /** A list that grows position by position picks the marked ones. */
  lemma {:induction false} PartPicks<U(!new)>(n: nat, marked: nat -> bool, right: (nat, U) -> bool, part: nat -> seq<U>)
    returns (ks: seq<nat>)
    requires part(0) == []
    requires forall k: nat {:trigger PartOn(marked, right, part, k)} :: k < n ==> PartOn(marked, right, part, k)
    ensures Picks(n, marked, right, ks, part(n))
    decreases n
  {
    if n == 0 {
      ks := [];
    } else {
      ks := PartPicks(n - 1, marked, right, part);
      assert PartOn(marked, right, part, n - 1);
      if marked(n - 1) {
        var u := part(n)[|part(n)| - 1];
        PicksOn(n - 1, marked, right, ks, part(n - 1), u);
        assert part(n) == part(n - 1) + [u];
        ks := ks + [n - 1];
      }
    }
  }

  /** The same for the flagged elements of a list themselves, with the parts given one by one. */
  lemma FlaggedPicks<T(!new)>(s: seq<T>, flags: seq<bool>, parts: seq<seq<T>>) returns (ks: seq<nat>)
    requires |flags| == |s| && |parts| == |s| + 1 && parts[0] == []
    requires forall k :: 0 <= k < |s| ==> parts[k + 1] == if flags[k] then parts[k] + [s[k]] else parts[k]
    ensures Increasing(ks, |s|) && |parts[|s|]| == |ks|
    ensures forall j :: 0 <= j < |ks| ==> parts[|s|][j] == s[ks[j]]
    ensures forall k: nat :: k < |s| ==> (k in ks <==> flags[k])
  {
    var marked := (k: nat) => k < |s| && flags[k];
    var right := (k: nat, t: T) => k < |s| && t == s[k];
    var part := (k: nat) => if k <= |s| then parts[k] else [];
    forall k: nat {:trigger PartOn(marked, right, part, k)} | k < |s| ensures PartOn(marked, right, part, k) {
    }
    ks := PartPicks(|s|, marked, right, part);
  }
}

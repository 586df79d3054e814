/** What the versioned stores share: a name within a project, and one version of it as a unique key. */
module Versions {

  datatype Name = Name(project: string, tag: string)

  datatype Key = Key(name: Name, version: nat)

  // `v` is COALESCE(MAX(version), 0) of the name.
  predicate IsHighest(keys: set<Key>, n: Name, v: nat) {
    (v == 0 || Key(n, v) in keys) && forall k :: k in keys && k.name == n ==> k.version <= v
  }

  lemma HighestUnique(keys: set<Key>, n: Name, v: nat, w: nat)
    requires IsHighest(keys, n, v) && IsHighest(keys, n, w)
    ensures v == w
  {
    if v > 0 {
      assert Key(n, v).name == n;
    }
    if w > 0 {
      assert Key(n, w).name == n;
    }
  }

  // The highest of the numbers issued.
  function Top(c: seq<nat>): nat {
    if c == [] then 0 else if c[|c| - 1] > Top(c[..|c| - 1]) then c[|c| - 1] else Top(c[..|c| - 1])
  }

  lemma TopNext(c: seq<nat>, v: nat)
    ensures Top(c + [v]) == if v > Top(c) then v else Top(c)
  {
    assert (c + [v])[..|c|] == c;
  }

  // 1, 2, 3, ... in order.
  predicate InOrder(c: seq<nat>) {
    forall i :: 0 <= i < |c| ==> c[i] == i + 1
  }

  lemma {:induction false} InOrderTop(c: seq<nat>)
    requires InOrder(c)
    ensures Top(c) == |c|
  {
    if c != [] {
      InOrderTop(c[..|c| - 1]);
    }
  }
}

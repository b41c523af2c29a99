/**
 * A JavaScript `Set` of callbacks, as the theme manager and the local auth
 * layer keep them: each callback is a token, the set is a sequence without
 * repeats in insertion order, and notifying calls every member in that order.
 */
module ListenerSet {

  predicate Distinct(ls: seq<nat>) {
    forall i, j :: 0 <= i < j < |ls| ==> ls[i] != ls[j]
  }

  /** `Set.add`: a callback already present keeps its place; a new one goes last. */
  function Add(ls: seq<nat>, l: nat): (r: seq<nat>)
    ensures l in r && forall m :: m in ls ==> m in r
    ensures forall m :: m in r ==> m in ls || m == l
    ensures Distinct(ls) ==> Distinct(r)
    ensures l in ls ==> r == ls
  {
    if l in ls then ls else ls + [l]
  }

  /** `Set.delete`: the other callbacks, in their order. */
  function Remove(ls: seq<nat>, l: nat): (r: seq<nat>)
    ensures l !in r
    ensures forall m :: m in ls && m != l ==> m in r
    ensures forall m :: m in r ==> m in ls
    ensures l !in ls ==> r == ls
    ensures |r| <= |ls|
  {
    if ls == [] then []
    else if ls[0] == l then Remove(ls[1..], l)
    else [ls[0]] + Remove(ls[1..], l)
  }

  /** Removing keeps the callbacks apart. */
  lemma {:induction false} RemoveDistinct(ls: seq<nat>, l: nat)
    requires Distinct(ls)
    ensures Distinct(Remove(ls, l))
  {
    if ls != [] {
      assert Distinct(ls[1..]);
      RemoveDistinct(ls[1..], l);
      var rest := Remove(ls[1..], l);
      assert ls[0] !in ls[1..];
      assert ls[0] !in rest;
      if ls[0] != l {
        assert Remove(ls, l) == [ls[0]] + rest;
        forall i, j | 0 <= i < j < |[ls[0]] + rest| ensures ([ls[0]] + rest)[i] != ([ls[0]] + rest)[j] {
          if i == 0 { assert ([ls[0]] + rest)[j] in rest; }
        }
      }
    }
  }

  /** Unsubscribing what was just subscribed restores the set. */
  lemma {:induction false} RemoveAfterAdd(ls: seq<nat>, l: nat)
    requires l !in ls
    ensures Remove(Add(ls, l), l) == ls
  {
    RemoveLast(ls, l);
  }

  lemma {:induction false} RemoveLast(ls: seq<nat>, l: nat)
    requires l !in ls
    ensures Remove(ls + [l], l) == ls
  {
    if ls != [] {
      assert (ls + [l])[1..] == ls[1..] + [l];
      RemoveLast(ls[1..], l);
    } else {
      assert [l][1..] == [];
    }
  }

  /** `listeners.forEach((l) => l())`: one call per callback, in order, each seeing `value`. */
  function Notify<V>(ls: seq<nat>, value: V): (r: seq<(nat, V)>)
    ensures |r| == |ls| && forall k :: 0 <= k < |r| ==> r[k] == (ls[k], value)
  {
    seq(|ls|, k requires 0 <= k < |ls| => (ls[k], value))
  }
}

/** The tree of joins in a plan: the order of its nodes and their lowest common ancestors. */
module PlanTree {
  import opened Prelude

  datatype Tree = Leaf(id: nat) | Join(id: nat, left: Tree, right: Tree)

  function Ids(t: Tree): set<nat> {
    if t.Leaf? then {t.id} else {t.id} + Ids(t.left) + Ids(t.right)
  }

  function Leaves(t: Tree): (ls: set<nat>)
    ensures ls <= Ids(t) && ls != {}
  {
    if t.Leaf? then {t.id} else Leaves(t.left) + Leaves(t.right)
  }

  predicate UniqueIds(t: Tree) {
    t.Join? ==>
      && UniqueIds(t.left) && UniqueIds(t.right)
      && Ids(t.left) !! Ids(t.right) && t.id !in Ids(t.left) + Ids(t.right)
  }

  predicate Within(s: Tree, t: Tree) {
    s == t || (t.Join? && (Within(s, t.left) || Within(s, t.right)))
  }

  // ----- Lowest common ancestors --------------------------------------------------------------

  function FindLCA(h: Tree, p1: nat, p2: nat): Option<Tree> {
    if h.id == p1 || h.id == p2 then Some(h)
    else if h.Leaf? then None
    else
      var pl := FindLCA(h.left, p1, p2);
      var pr := FindLCA(h.right, p1, p2);
      if pl.Some? && pr.Some? then Some(h) else if pl.None? then pr else pl
  }

  lemma {:induction false} WithinHasIds(s: Tree, t: Tree)
    requires Within(s, t)
    ensures Ids(s) <= Ids(t) && Leaves(s) <= Leaves(t) && (UniqueIds(t) ==> UniqueIds(s))
  {
    if s != t {
      if Within(s, t.left) {
        WithinHasIds(s, t.left);
      } else {
        WithinHasIds(s, t.right);
      }
    }
  }

  lemma {:induction false} LCAFindsOne(h: Tree, p: nat, m: nat)
    ensures FindLCA(h, p, m).Some? <==> p in Ids(h) || m in Ids(h)
    ensures FindLCA(h, p, m).Some? ==> Within(FindLCA(h, p, m).value, h)
  {
    if h.Join? {
      LCAFindsOne(h.left, p, m);
      LCAFindsOne(h.right, p, m);
    }
  }

  /** A proper subtree is on the side of its nodes. */
  lemma Side(h: Tree, s: Tree, x: nat)
    requires UniqueIds(h) && h.Join? && Within(s, h) && s != h && x in Ids(s)
    ensures (x in Ids(h.left) <==> Within(s, h.left)) && (x in Ids(h.right) <==> Within(s, h.right)) && x != h.id
  {
    if Within(s, h.left) {
      WithinHasIds(s, h.left);
    }
    if Within(s, h.right) {
      WithinHasIds(s, h.right);
    }
  }

  /** The lowest common ancestor of two nodes contains both, and is part of every subtree that does. */
  lemma {:induction false} LCAIsLowest(h: Tree, p: nat, m: nat, s: Tree)
    requires UniqueIds(h) && p in Ids(h) && m in Ids(h) && Within(s, h) && p in Ids(s) && m in Ids(s)
    ensures FindLCA(h, p, m).Some?
    ensures var a := FindLCA(h, p, m).value; Within(a, h) && p in Ids(a) && m in Ids(a) && Within(a, s)
  {
    LCAFindsOne(h, p, m);
    if h.Join? {
      LCAFindsOne(h.left, p, m);
      LCAFindsOne(h.right, p, m);
      if s != h {
        Side(h, s, p);
        Side(h, s, m);
      }
      if p in Ids(h.left) && m in Ids(h.left) {
        LCAIsLowest(h.left, p, m, if s == h then h.left else s);
      } else if p in Ids(h.right) && m in Ids(h.right) {
        LCAIsLowest(h.right, p, m, if s == h then h.right else s);
      }
    }
  }

  // ----- The order of the nodes ------------------------------------------------------------------

  /** Leaves on the left come before leaves on the right, at every join. */
  ghost predicate Ordered(t: Tree, order: map<nat, nat>) {
    && Ids(t) <= order.Keys
    && (t.Join? ==>
         && Ordered(t.left, order) && Ordered(t.right, order)
         && forall l, r | l in Ids(t.left) && r in Ids(t.right) :: order[l] < order[r])
  }

  /** Two leaves meet at a join with the earlier one on the left. */
  lemma {:induction false} LCASeparates(h: Tree, order: map<nat, nat>, p: nat, m: nat)
    requires UniqueIds(h) && Ordered(h, order) && p in Leaves(h) && m in Leaves(h) && order[p] < order[m]
    ensures FindLCA(h, p, m).Some?
    ensures var a := FindLCA(h, p, m).value;
      Within(a, h) && a.Join? && p in Leaves(a.left) && m in Leaves(a.right)
  {
    if h.Join? {
      LCAFindsOne(h.left, p, m);
      LCAFindsOne(h.right, p, m);
      LeavesAreNotJoins(h, p);
      LeavesAreNotJoins(h, m);
      if p in Ids(h.left) && m in Ids(h.left) {
        LCASeparates(h.left, order, p, m);
      } else if p in Ids(h.right) && m in Ids(h.right) {
        LCASeparates(h.right, order, p, m);
      }
    }
  }

  lemma LeavesAreNotJoins(h: Tree, p: nat)
    requires UniqueIds(h) && h.Join? && p in Leaves(h)
    ensures p != h.id && (p in Ids(h.left) <==> p in Leaves(h.left)) && (p in Ids(h.right) <==> p in Leaves(h.right))
  {
  }

  lemma {:induction false} OrderedFrame(t: Tree, order: map<nat, nat>, order': map<nat, nat>)
    requires Ordered(t, order) && Ids(t) <= order'.Keys && forall x | x in Ids(t) :: order[x] == order'[x]
    ensures Ordered(t, order')
  {
    if t.Join? {
      OrderedFrame(t.left, order, order');
      OrderedFrame(t.right, order, order');
    }
  }

  /** The numbers of a subtree lie above `from`, up to that of its root. */
  ghost predicate Numbered(t: Tree, order: map<nat, nat>, from: nat) {
    Ordered(t, order) && forall x | x in Ids(t) :: from < order[x] <= order[t.id]
  }

  ghost predicate SameOutside(t: Tree, order: map<nat, nat>, order': map<nat, nat>) {
    order.Keys <= order'.Keys && forall x | x in order && x !in Ids(t) :: order'[x] == order[x]
  }

  lemma NumberJoin(t: Tree, a: map<nat, nat>, b: map<nat, nat>, from: nat)
    requires UniqueIds(t) && t.Join? && Numbered(t.left, a, from)
    requires Numbered(t.right, b, a[t.left.id]) && SameOutside(t.right, a, b)
    ensures Numbered(t, b[t.id := b[t.right.id] + 1], from)
  {
    var c := b[t.id := b[t.right.id] + 1];
    OrderedFrame(t.left, a, c);
    OrderedFrame(t.right, b, c);
    assert a[t.left.id] < b[t.right.id];
  }

  class Orders {
    var order: map<nat, nat>

    /** Numbers the nodes of a subtree from left to right, the join after its sides. */
    method ReOrder(t: Tree, from: nat)
      requires UniqueIds(t)
      modifies this
      ensures Numbered(t, order, from) && SameOutside(t, old(order), order)
      decreases t
    {
      if t.Leaf? {
        order := order[t.id := from + 1];
      } else {
        ReOrder(t.left, from);
        ghost var afterLeft := order;
        ReOrder(t.right, order[t.left.id]);
        NumberJoin(t, afterLeft, order, from);
        order := order[t.id := order[t.right.id] + 1];
      }
    }
  }
}

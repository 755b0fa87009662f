/** The two pieces of state on src/pages/Landing.jsx: the FAQ accordion's
    `active` index and the mobile menu's `open` flag. */
module Landing {

  /** Which of the `n` accordion items are open: exactly the one at position
      `active`, if any. */
  function OpenFlags(active: int, n: nat): (flags: seq<bool>)
    ensures |flags| == n
    ensures forall i :: 0 <= i < n ==> (flags[i] <==> i == active)
  {
    seq(n, i => i == active)
  }

  /** How many flags are set. */
  function CountOpen(flags: seq<bool>): nat
  {
    if flags == [] then 0
    else CountOpen(flags[..|flags| - 1]) + (if flags[|flags| - 1] then 1 else 0)
  }

  /** Exactly one item is open when `active` is an item's index, and none
      otherwise; so never more than one. */
  lemma {:induction false} OneOpenAtMost(active: int, n: nat)
    ensures CountOpen(OpenFlags(active, n)) == if 0 <= active < n then 1 else 0
  {
    if n > 0 {
      OneOpenAtMost(active, n - 1);
      assert OpenFlags(active, n)[..n - 1] == OpenFlags(active, n - 1);
    }
  }

  class Accordion {
    /** The index of the open item, or -1 when all are closed. */
    var active: int
    /** The number of items. */
    const count: nat

    /** The first item starts open. */
    constructor (n: nat)
      ensures count == n && active == 0
      ensures n > 0 ==> OpenFlags(active, count)[0]
    {
      count := n;
      active := 0;
    }

    /** Clicking item `idx`: an open item closes, leaving all closed; a
        closed item opens and the previously open one closes. */
    method Click(idx: nat)
      requires idx < count
      modifies this
      ensures active == if old(active) == idx then -1 else idx
      ensures old(active) == idx ==> forall i :: 0 <= i < count ==> !OpenFlags(active, count)[i]
      ensures old(active) != idx ==> OpenFlags(active, count)[idx]
      ensures old(active) != idx ==> forall i :: 0 <= i < count && i != idx ==> !OpenFlags(active, count)[i]
    {
      var open := idx == active;
      active := if open then -1 else idx;
    }
  }

  /** Clicking the same item twice returns the accordion to where it was
      when that item was open or closed and nothing else was open. */
  method ClickTwice(a: Accordion, idx: nat)
    requires idx < a.count && (a.active == idx || a.active == -1)
    modifies a
    ensures a.active == old(a.active)
  {
    a.Click(idx);
    a.Click(idx);
  }

  class MobileMenu {
    var open: bool

    constructor ()
      ensures !open
    {
      open := false;
    }

    /** The menu button flips the drawer. */
    method Toggle()
      modifies this
      ensures open == !old(open)
    {
      open := !open;
    }

    /** Any link in the drawer closes it. */
    method FollowLink()
      modifies this
      ensures !open
    {
      open := false;
    }
  }
}

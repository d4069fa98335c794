/**
 * Linking groups into a tree while a world is read: a group whose editor
 * block names no owner (`groupid` 0) is a top-level group; any other group
 * goes under the first already linked group whose ID is its owner, pass
 * after pass, until a pass links nothing. Groups whose owner never links
 * (a dangling owner, or a cycle) are left out.
 */
module GroupLinks {
  import opened Wrappers
  import opened MapObjects

  /** A group as read, with the owner its editor block names (its `groupid`). */
  datatype Slot = Slot(group: MapObject, owner: int)

  /**
   * A linked group: the slot it was read into, and the position among the
   * links of the group it went under (none for a top-level group).
   */
  datatype Link = Link(slot: nat, parent: Option<nat>)

  predicate ValidLinks(slots: seq<Slot>, links: seq<Link>)
  {
    forall p :: 0 <= p < |links| ==>
      links[p].slot < |slots| && (links[p].parent.Some? ==> links[p].parent.value < p)
  }

  /** The IDs of the linked groups, in link order. */
  function IdsOf(slots: seq<Slot>, links: seq<Link>): (ids: seq<int>)
    requires ValidLinks(slots, links)
    ensures |ids| == |links|
    ensures forall p :: 0 <= p < |links| ==> ids[p] == slots[links[p].slot].group.id
  {
    seq(|links|, p requires 0 <= p < |links| && ValidLinks(slots, links) => slots[links[p].slot].group.id)
  }

  /** `assignedGroups.First(y => y.ID == id)`, as a position. */
  function FirstIndex(xs: seq<int>, x: int): (r: Option<nat>)
    ensures r.Some? ==> r.value < |xs| && xs[r.value] == x && forall q :: 0 <= q < r.value ==> xs[q] != x
    ensures r.None? <==> forall q :: 0 <= q < |xs| ==> xs[q] != x
  {
    if xs == [] then None
    else if xs[0] == x then Some(0)
    else match FirstIndex(xs[1..], x)
      case None => None
      case Some(q) => Some(q + 1)
  }

  /** Extending the list does not move a group that is already found. */
  lemma FirstIndexAppend(xs: seq<int>, ys: seq<int>, x: int)
    requires FirstIndex(xs, x).Some?
    ensures FirstIndex(xs + ys, x) == FirstIndex(xs, x)
  {
    var q := FirstIndex(xs, x).value;
    assert (xs + ys)[q] == x;
    assert forall k :: 0 <= k < q ==> (xs + ys)[k] == xs[k];
  }

  /** The slot is among the linked groups. */
  predicate IsLinked(links: seq<Link>, i: nat)
  {
    exists p :: 0 <= p < |links| && links[p].slot == i
  }

  predicate InSlots(slots: seq<Slot>, remaining: seq<nat>)
  {
    forall k :: 0 <= k < |remaining| ==> remaining[k] < |slots|
  }

  /** `groups.Where(x => assignedGroups.Any(y => y.ID == x.Value))`: the groups of this pass. */
  function Candidates(slots: seq<Slot>, ids: seq<int>, remaining: seq<nat>): (r: seq<nat>)
    requires InSlots(slots, remaining)
    ensures InSlots(slots, r)
    ensures forall k :: 0 <= k < |r| ==> FirstIndex(ids, slots[r[k]].owner).Some?
  {
    if remaining == [] then []
    else
      var rest := Candidates(slots, ids, remaining[1..]);
      if FirstIndex(ids, slots[remaining[0]].owner).Some? then [remaining[0]] + rest else rest
  }

  /** The groups a pass leaves behind: those it does not link. */
  function Rest(slots: seq<Slot>, ids: seq<int>, remaining: seq<nat>): (r: seq<nat>)
    requires InSlots(slots, remaining)
    ensures InSlots(slots, r)
    ensures forall k :: 0 <= k < |r| ==> FirstIndex(ids, slots[r[k]].owner).None?
  {
    if remaining == [] then []
    else
      var rest := Rest(slots, ids, remaining[1..]);
      if FirstIndex(ids, slots[remaining[0]].owner).Some? then rest else [remaining[0]] + rest
  }

  /** A pass splits the remaining groups in two: those it links and those it leaves. */
  lemma {:induction false} PassSplits(slots: seq<Slot>, ids: seq<int>, remaining: seq<nat>)
    requires InSlots(slots, remaining)
    ensures |Candidates(slots, ids, remaining)| + |Rest(slots, ids, remaining)| == |remaining|
  {
    if remaining != [] {
      PassSplits(slots, ids, remaining[1..]);
    }
  }

  /**
   * The body of one pass: each group in turn goes under the first linked
   * group (counting those linked earlier in the pass) whose ID is its owner.
   */
  function AssignEach(slots: seq<Slot>, links: seq<Link>, cands: seq<nat>): (r: seq<Link>)
    requires ValidLinks(slots, links) && InSlots(slots, cands)
    ensures ValidLinks(slots, r)
    ensures |r| == |links| + |cands| && r[..|links|] == links
    ensures forall k :: |links| <= k < |r| ==> r[k].slot == cands[k - |links|]
    decreases |cands|
  {
    if cands == [] then links
    else
      var l := AssignEach(slots, links, cands[..|cands| - 1]);
      var i := cands[|cands| - 1];
      var r := l + [Link(i, FirstIndex(IdsOf(slots, l), slots[i].owner))];
      assert forall k :: |links| <= k < |l| ==> r[k] == l[k];
      r
  }

  /** The `while` loop: passes until the groups run out or a pass links nothing. */
  function Fix(slots: seq<Slot>, links: seq<Link>, remaining: seq<nat>): (r: seq<Link>)
    requires ValidLinks(slots, links) && InSlots(slots, remaining)
    ensures ValidLinks(slots, r)
    decreases |remaining|
  {
    var ids := IdsOf(slots, links);
    var cands := Candidates(slots, ids, remaining);
    if remaining == [] || cands == [] then links
    else
      PassSplits(slots, ids, remaining);
      var next := AssignEach(slots, links, cands);
      Fix(slots, next, Rest(slots, ids, remaining))
  }

  /** The top-level groups (owner 0) from slot `i` on, in read order. */
  function Tops(slots: seq<Slot>, i: nat): (r: seq<Link>)
    requires i <= |slots|
    ensures forall k :: 0 <= k < |r| ==> i <= r[k].slot < |slots| && r[k].parent.None? && slots[r[k].slot].owner == 0
    ensures forall j :: i <= j < |slots| && slots[j].owner == 0 ==> IsLinked(r, j)
    decreases |slots| - i
  {
    if i == |slots| then []
    else
      var rest := Tops(slots, i + 1);
      if slots[i].owner == 0 then
        var r := [Link(i, None)] + rest;
        assert forall j :: i < j < |slots| && slots[j].owner == 0 ==> IsLinked(r, j) by {
          forall j | i < j < |slots| && slots[j].owner == 0 ensures IsLinked(r, j) {
            var p :| 0 <= p < |rest| && rest[p].slot == j;
            assert r[p + 1].slot == j;
          }
        }
        assert r[0].slot == i;
        r
      else rest
  }

  function Range(n: nat): (r: seq<nat>)
    ensures |r| == n && forall i :: 0 <= i < n ==> r[i] == i
  {
    seq(n, i requires 0 <= i < n => i)
  }

  /** The links the `ReadWorld` loop ends with. */
  function Linked(slots: seq<Slot>): (r: seq<Link>)
    ensures ValidLinks(slots, r)
  {
    Fix(slots, Tops(slots, 0), Range(|slots|))
  }

  /** The `foreach (var kv in canAssign)` of one pass. */
  method AssignPass(slots: seq<Slot>, links: seq<Link>, cands: seq<nat>) returns (r: seq<Link>)
    requires ValidLinks(slots, links) && InSlots(slots, cands)
    ensures r == AssignEach(slots, links, cands)
  {
    r := links;
    for j := 0 to |cands|
      invariant r == AssignEach(slots, links, cands[..j])
    {
      var i := cands[j];
      var parent := FirstIndex(IdsOf(slots, r), slots[i].owner);
      assert cands[..j + 1][..j] == cands[..j];
      r := r + [Link(i, parent)];
    }
    assert cands[..|cands|] == cands;
  }

  /**
   * The linking loop of `ReadWorld`: the groups with no owner first, then
   * pass after pass of groups whose owner is among those already linked.
   */
  method LinkGroups(slots: seq<Slot>) returns (links: seq<Link>)
    ensures links == Linked(slots)
  {
    links := Tops(slots, 0);
    var remaining := Range(|slots|);
    while |remaining| > 0
      invariant ValidLinks(slots, links) && InSlots(slots, remaining)
      invariant Fix(slots, links, remaining) == Linked(slots)
      decreases |remaining|
    {
      var ids := IdsOf(slots, links);
      var cands := Candidates(slots, ids, remaining);
      if cands == [] {
        break;
      }
      links := AssignPass(slots, links, cands);
      // the pass's `groups.Remove(kv.Key)`, all at once
      PassSplits(slots, ids, remaining);
      remaining := Rest(slots, ids, remaining);
    }
  }

  // ---------------------------------------------------------------- properties of the links

  /**
   * The first `t` links are the top-level groups, and every later group is
   * under the first linked group whose ID is its owner.
   */
  predicate ParentsFirst(slots: seq<Slot>, links: seq<Link>, t: nat)
    requires ValidLinks(slots, links)
  {
    forall p :: 0 <= p < |links| ==>
      && (links[p].parent.None? <==> p < t)
      && (links[p].parent.Some? ==> links[p].parent == FirstIndex(IdsOf(slots, links), slots[links[p].slot].owner))
  }

  /** Every group is linked or still waiting. */
  predicate Covered(slots: seq<Slot>, links: seq<Link>, remaining: seq<nat>)
  {
    forall i :: 0 <= i < |slots| ==> IsLinked(links, i) || i in remaining
  }

  lemma IdsOfPrefix(slots: seq<Slot>, links: seq<Link>, longer: seq<Link>)
    requires ValidLinks(slots, longer) && |links| <= |longer| && longer[..|links|] == links
    ensures ValidLinks(slots, links)
    ensures IdsOf(slots, longer) == IdsOf(slots, links) + IdsOf(slots, longer)[|links|..]
  {
    assert forall p :: 0 <= p < |links| ==> links[p] == longer[p];
    assert ValidLinks(slots, links);
    var a, b := IdsOf(slots, longer), IdsOf(slots, links);
    assert forall p :: 0 <= p < |links| ==> a[p] == b[p];
    assert a == a[..|links|] + a[|links|..];
  }

  /** The groups a pass considers are exactly those whose owner is already linked. */
  lemma {:induction false} PassMembership(slots: seq<Slot>, ids: seq<int>, remaining: seq<nat>)
    requires InSlots(slots, remaining)
    ensures forall k :: 0 <= k < |remaining| && FirstIndex(ids, slots[remaining[k]].owner).Some? ==>
      remaining[k] in Candidates(slots, ids, remaining)
    ensures forall k :: 0 <= k < |remaining| && FirstIndex(ids, slots[remaining[k]].owner).None? ==>
      remaining[k] in Rest(slots, ids, remaining)
  {
    if remaining != [] {
      PassMembership(slots, ids, remaining[1..]);
      assert forall k :: 1 <= k < |remaining| ==> remaining[k] == remaining[1..][k - 1];
    }
  }

  /** Appending a group under the first linked group with its owner's ID keeps the parent rule. */
  lemma ParentsFirstAppend(slots: seq<Slot>, links: seq<Link>, x: Link, t: nat)
    requires ValidLinks(slots, links) && ValidLinks(slots, links + [x]) && x.slot < |slots| && t <= |links|
    requires ParentsFirst(slots, links, t)
    requires x.parent.Some? && x.parent == FirstIndex(IdsOf(slots, links), slots[x.slot].owner)
    ensures ParentsFirst(slots, links + [x], t)
  {
    var r := links + [x];
    var idsL := IdsOf(slots, links);
    var ids := idsL + [slots[x.slot].group.id];
    assert IdsOf(slots, r) == ids;
    forall p | 0 <= p < |r|
      ensures r[p].parent.None? <==> p < t
      ensures r[p].parent.Some? ==> r[p].parent == FirstIndex(ids, slots[r[p].slot].owner)
    {
      if p < |links| {
        assert r[p] == links[p];
        if links[p].parent.Some? {
          FirstIndexAppend(idsL, [slots[x.slot].group.id], slots[links[p].slot].owner);
        }
      } else {
        FirstIndexAppend(idsL, [slots[x.slot].group.id], slots[x.slot].owner);
      }
    }
  }

  /** One pass keeps the parent rule. */
  lemma {:induction false} AssignEachKeeps(slots: seq<Slot>, links: seq<Link>, cands: seq<nat>, t: nat)
    requires ValidLinks(slots, links) && InSlots(slots, cands) && t <= |links|
    requires ParentsFirst(slots, links, t)
    requires forall k :: 0 <= k < |cands| ==> FirstIndex(IdsOf(slots, links), slots[cands[k]].owner).Some?
    ensures ParentsFirst(slots, AssignEach(slots, links, cands), t)
    decreases |cands|
  {
    if cands != [] {
      var front := cands[..|cands| - 1];
      var l := AssignEach(slots, links, front);
      var i := cands[|cands| - 1];
      AssignEachKeeps(slots, links, front, t);
      IdsOfPrefix(slots, links, l);
      FirstIndexAppend(IdsOf(slots, links), IdsOf(slots, l)[|links|..], slots[i].owner);
      ParentsFirstAppend(slots, l, Link(i, FirstIndex(IdsOf(slots, l), slots[i].owner)), t);
    }
  }

  /** One pass links every group it considers, and keeps the links it had. */
  lemma AssignEachLinks(slots: seq<Slot>, links: seq<Link>, cands: seq<nat>)
    requires ValidLinks(slots, links) && InSlots(slots, cands)
    ensures forall k :: 0 <= k < |cands| ==> IsLinked(AssignEach(slots, links, cands), cands[k])
  {
    var r := AssignEach(slots, links, cands);
    forall k | 0 <= k < |cands| ensures IsLinked(r, cands[k]) {
      assert r[|links| + k].slot == cands[k];
    }
  }

  /** The passes keep the parent rule, and when they stop no waiting group's owner is linked. */
  lemma {:induction false} FixKeeps(slots: seq<Slot>, links: seq<Link>, remaining: seq<nat>, t: nat)
    requires ValidLinks(slots, links) && InSlots(slots, remaining) && t <= |links|
    requires ParentsFirst(slots, links, t) && Covered(slots, links, remaining)
    ensures var r := Fix(slots, links, remaining);
      && |links| <= |r| && r[..|links|] == links
      && ParentsFirst(slots, r, t)
      && forall i :: 0 <= i < |slots| && !IsLinked(r, i) ==> FirstIndex(IdsOf(slots, r), slots[i].owner).None?
    decreases |remaining|
  {
    var ids := IdsOf(slots, links);
    var cands := Candidates(slots, ids, remaining);
    PassMembership(slots, ids, remaining);
    if remaining == [] || cands == [] {
      forall i | 0 <= i < |slots| && !IsLinked(links, i)
        ensures FirstIndex(ids, slots[i].owner).None?
      {
        var k :| 0 <= k < |remaining| && remaining[k] == i;
      }
    } else {
      var next := AssignEach(slots, links, cands);
      var rest := Rest(slots, ids, remaining);
      PassSplits(slots, ids, remaining);
      AssignEachKeeps(slots, links, cands, t);
      PassCovers(slots, links, remaining);
      FixKeeps(slots, next, rest, t);
      var r := Fix(slots, next, rest);
      assert r[..|links|] == r[..|next|][..|links|];
    }
  }

  /** After a pass every group is linked or still waiting. */
  lemma PassCovers(slots: seq<Slot>, links: seq<Link>, remaining: seq<nat>)
    requires ValidLinks(slots, links) && InSlots(slots, remaining) && Covered(slots, links, remaining)
    ensures var ids := IdsOf(slots, links);
      Covered(slots, AssignEach(slots, links, Candidates(slots, ids, remaining)), Rest(slots, ids, remaining))
  {
    var ids := IdsOf(slots, links);
    var cands := Candidates(slots, ids, remaining);
    var next := AssignEach(slots, links, cands);
    var rest := Rest(slots, ids, remaining);
    PassMembership(slots, ids, remaining);
    AssignEachLinks(slots, links, cands);
    forall i | 0 <= i < |slots| ensures IsLinked(next, i) || i in rest {
      if IsLinked(links, i) {
        var p :| 0 <= p < |links| && links[p].slot == i;
        assert next[p] == links[p];
      } else {
        var k :| 0 <= k < |remaining| && remaining[k] == i;
        if FirstIndex(ids, slots[i].owner).Some? {
          var j :| 0 <= j < |cands| && cands[j] == i;
        }
      }
    }
  }

  lemma LinkedKeeps(slots: seq<Slot>)
    ensures var r := Linked(slots);
      var tops := Tops(slots, 0);
      && |tops| <= |r| && r[..|tops|] == tops
      && ParentsFirst(slots, r, |tops|)
      && forall i :: 0 <= i < |slots| && !IsLinked(r, i) ==> FirstIndex(IdsOf(slots, r), slots[i].owner).None?
  {
    var tops := Tops(slots, 0);
    var range := Range(|slots|);
    assert Covered(slots, tops, range) by {
      forall i | 0 <= i < |slots| ensures i in range { assert range[i] == i; }
    }
    FixKeeps(slots, tops, range, |tops|);
  }

  /**
   * The links `ReadWorld` ends with: the top-level groups first, in read
   * order and with no parent; every later group is under an earlier one,
   * the first linked group whose ID is its owner; and a group is linked
   * exactly when it is top-level or its owner is the ID of a linked group,
   * so a group with a dangling owner, or on a cycle, is in nobody's children.
   */
  lemma LinkedProps(slots: seq<Slot>)
    ensures var links := Linked(slots);
      var tops := Tops(slots, 0);
      && |tops| <= |links| && links[..|tops|] == tops
      && ParentsFirst(slots, links, |tops|)
      && forall i :: 0 <= i < |slots| ==>
           (IsLinked(links, i) <==> slots[i].owner == 0 || FirstIndex(IdsOf(slots, links), slots[i].owner).Some?)
  {
    var tops := Tops(slots, 0);
    var links := Linked(slots);
    LinkedKeeps(slots);
    forall i | 0 <= i < |slots|
      ensures IsLinked(links, i) <==> slots[i].owner == 0 || FirstIndex(IdsOf(slots, links), slots[i].owner).Some?
    {
      if IsLinked(links, i) {
        var p :| 0 <= p < |links| && links[p].slot == i;
        if p < |tops| {
          assert links[p] == tops[p];
        }
      }
    }
  }
}

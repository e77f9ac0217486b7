/**
 Why payloads are sorted by group (mempool/ackmem.go): executing a block costs one hand-over
 wherever two neighbouring microblocks belong to different groups.
 */
module Reordering {
  import opened Blocks
  import opened AckMem

  ghost function GroupChanges(mbs: seq<MicroBlock>): nat {
    if |mbs| < 2 then 0
    else (if mbs[0].group != mbs[1].group then 1 else 0) + GroupChanges(mbs[1..])
  }

  ghost function GroupsOf(mbs: seq<MicroBlock>): set<int> {
    set i | 0 <= i < |mbs| :: mbs[i].group
  }

  lemma {:induction false} GroupsSplit(mbs: seq<MicroBlock>)
    requires mbs != []
    ensures GroupsOf(mbs) == {mbs[0].group} + GroupsOf(mbs[1..])
    ensures |mbs| >= 2 ==> mbs[1].group in GroupsOf(mbs[1..])
  {
    assert mbs == [mbs[0]] + mbs[1..];
    assert |mbs| >= 2 ==> mbs[1..][0] == mbs[1];
  }

  /** Visiting g groups takes at least g - 1 changes. */
  lemma {:induction false} ChangesAtLeast(mbs: seq<MicroBlock>)
    requires mbs != []
    ensures GroupChanges(mbs) >= |GroupsOf(mbs)| - 1
    decreases |mbs|
  {
    GroupsSplit(mbs);
    if |mbs| == 1 {
      assert GroupsOf(mbs[1..]) == {};
    } else {
      ChangesAtLeast(mbs[1..]);
    }
  }

  lemma {:induction false} ChangesWhenSorted(mbs: seq<MicroBlock>)
    requires mbs != [] && SortedByGroup(mbs)
    ensures GroupChanges(mbs) == |GroupsOf(mbs)| - 1
    decreases |mbs|
  {
    GroupsSplit(mbs);
    if |mbs| == 1 {
      assert GroupsOf(mbs[1..]) == {};
    } else {
      ChangesWhenSorted(mbs[1..]);
      if mbs[0].group == mbs[1].group {
        assert GroupsOf(mbs) == GroupsOf(mbs[1..]);
      } else {
        assert mbs[0].group !in GroupsOf(mbs[1..]);
      }
    }
  }

  /** In group mode no order of the proposed microblocks has fewer group changes than the proposed one. */
  lemma {:induction false} PayloadHasFewestChanges(c: Settings, s: Pool, order: seq<MicroBlock>, other: seq<MicroBlock>)
    requires c.grouped && CanSortTo(c, s.queue, order)
    requires multiset(other) == multiset(TakePayload(c, s, order).1.mbs)
    ensures var mbs := TakePayload(c, s, order).1.mbs;
            && mbs <= order
            && GroupChanges(mbs) <= GroupChanges(other)
            && (mbs != [] ==> GroupChanges(mbs) == |GroupsOf(mbs)| - 1)
  {
    var mbs := TakePayload(c, s, order).1.mbs;
    if mbs != [] {
      assert SortedByGroup(mbs);
      ChangesWhenSorted(mbs);
      assert mbs[0] in multiset(other);
      SameGroups(mbs, other);
      ChangesAtLeast(other);
    }
  }

  lemma {:induction false} SameGroups(a: seq<MicroBlock>, b: seq<MicroBlock>)
    requires multiset(a) == multiset(b)
    ensures GroupsOf(a) == GroupsOf(b)
  {
    forall g
      ensures g in GroupsOf(a) <==> g in GroupsOf(b)
    {
      if i :| 0 <= i < |a| && a[i].group == g {
        assert a[i] in multiset(b);
      }
      if i :| 0 <= i < |b| && b[i].group == g {
        assert b[i] in multiset(a);
      }
    }
  }
}

/**
 * The outbound scheduler's store: a std::priority_queue of scheduled messages
 * ordered by compare_msg_time_t, so `top()` is a message with the smallest
 * time. It is kept here as a sequence sorted by time; its abstract value is
 * the multiset of its elements, and nothing is promised about the relative
 * order of messages with equal times (the standard heap is not stable).
 */
module ScheduleQueues {
  import opened Types

  /** Times never decrease along `s`. */
  predicate SortedByTime(s: seq<ScheduledMsg>) {
    forall i, j | 0 <= i < j < |s| :: s[i].time <= s[j].time
  }

  /** Two sorted sequences, the first no later than the second, concatenate to a sorted one. */
  lemma SortedConcat(x: seq<ScheduledMsg>, y: seq<ScheduledMsg>)
    requires SortedByTime(x) && SortedByTime(y)
    requires forall i, j | 0 <= i < |x| && 0 <= j < |y| :: x[i].time <= y[j].time
    ensures SortedByTime(x + y)
  {
    var r := x + y;
    forall i, j | 0 <= i < j < |r| ensures r[i].time <= r[j].time {
      if j < |x| {
        assert r[i] == x[i] && r[j] == x[j];
      } else if i >= |x| {
        assert r[i] == y[i - |x|] && r[j] == y[j - |x|];
      } else {
        assert r[i] == x[i] && r[j] == y[j - |x|];
      }
    }
  }

  /**
   * Inserting a message before the first element of no smaller time keeps a
   * sorted sequence sorted.
   */
  lemma InsertKeepsSorted(s: seq<ScheduledMsg>, k: nat, m: ScheduledMsg)
    requires SortedByTime(s) && k <= |s|
    requires forall i | 0 <= i < k :: s[i].time < m.time
    requires k < |s| ==> m.time <= s[k].time
    ensures SortedByTime(s[..k] + [m] + s[k..])
  {
    var a, b := s[..k], s[k..];
    assert SortedByTime(a) by {
      forall i, j | 0 <= i < j < |a| ensures a[i].time <= a[j].time {
        assert a[i] == s[i] && a[j] == s[j];
      }
    }
    assert SortedByTime(b) by {
      forall i, j | 0 <= i < j < |b| ensures b[i].time <= b[j].time {
        assert b[i] == s[k + i] && b[j] == s[k + j];
      }
    }
    assert forall j | 0 <= j < |b| :: m.time <= b[j].time by {
      forall j | 0 <= j < |b| ensures m.time <= b[j].time {
        assert b[0] == s[k] && b[j] == s[k + j];
      }
    }
    SortedConcat([m], b);
    var mb := [m] + b;
    assert forall i, j | 0 <= i < |a| && 0 <= j < |mb| :: a[i].time <= mb[j].time by {
      forall i, j | 0 <= i < |a| && 0 <= j < |mb| ensures a[i].time <= mb[j].time {
        assert a[i] == s[i];
        if j > 0 {
          assert mb[j] == b[j - 1];
        }
      }
    }
    SortedConcat(a, mb);
    assert a + mb == s[..k] + [m] + s[k..];
  }

  /** The same insertion adds exactly that message. */
  lemma InsertAddsOne(s: seq<ScheduledMsg>, k: nat, m: ScheduledMsg)
    requires k <= |s|
    ensures multiset(s[..k] + [m] + s[k..]) == multiset(s) + multiset{m}
  {
    assert s == s[..k] + s[k..];
  }

  class ScheduleQueue {
    var elems: seq<ScheduledMsg>

    ghost predicate Valid()
      reads this
    {
      SortedByTime(elems)
    }

    /** The pending messages, with their multiplicities. */
    function Contents(): multiset<ScheduledMsg>
      reads this
    {
      multiset(elems)
    }

    constructor ()
      ensures Valid() && Contents() == multiset{}
    {
      elems := [];
    }

    function Empty(): (b: bool)
      reads this
      ensures b <==> Contents() == multiset{}
    {
      elems == []
    }

    /** top(): a message that no pending message ranks above, i.e. one with the minimum time. */
    function Top(): (m: ScheduledMsg)
      requires Valid() && !Empty()
      reads this
      ensures m in Contents()
      ensures forall y | y in Contents() :: !CompareMsgTime(m, y)
    {
      assert elems[0] in elems;
      assert forall y | y in multiset(elems) :: y in elems;
      elems[0]
    }

    /** push(): one more pending message; nothing removed. */
    method Push(m: ScheduledMsg)
      requires Valid()
      modifies this
      ensures Valid()
      ensures Contents() == old(Contents()) + multiset{m}
    {
      var k := 0;
      while k < |elems| && elems[k].time < m.time
        invariant 0 <= k <= |elems|
        invariant forall i | 0 <= i < k :: elems[i].time < m.time
      {
        k := k + 1;
      }
      InsertKeepsSorted(elems, k, m);
      InsertAddsOne(elems, k, m);
      elems := elems[..k] + [m] + elems[k..];
    }

    /** pop(): removes the message `top()` designates, and only that one. */
    method Pop()
      requires Valid() && !Empty()
      modifies this
      ensures Valid()
      ensures Contents() == old(Contents()) - multiset{old(Top())}
      ensures Contents() + multiset{old(Top())} == old(Contents())
    {
      assert elems == [elems[0]] + elems[1..];
      elems := elems[1..];
    }
  }
}

/**
 * LockedQueue<T>: the FIFO shared by the engine's receiver (producer) and the
 * host-side progress callback (consumer). Each operation holds the queue's
 * mutex for its whole duration, so each is one atomic step here.
 */
module LockedQueues {
  import opened Wrappers

  /** One call on the queue, as a step of an arbitrary producer/consumer interleaving. */
  datatype QueueOp<T> = PushOp(value: T) | PopOp

  /** The effect of one call: the new contents and what `pop` returned (None for nullptr). */
  function Apply<T>(q: seq<T>, op: QueueOp<T>): (r: (seq<T>, Option<T>))
  {
    match op
    case PushOp(v) => (q + [v], None)
    case PopOp => if q == [] then (q, None) else (q[1..], Some(q[0]))
  }

  /** The final contents and the values returned by successful pops, in order, after a run of calls. */
  function Run<T>(q: seq<T>, ops: seq<QueueOp<T>>): (r: (seq<T>, seq<T>))
    decreases |ops|
  {
    if ops == [] then (q, [])
    else
      var step := Apply(q, ops[0]);
      var rest := Run(step.0, ops[1..]);
      (rest.0, Returned(step.1) + rest.1)
  }

  function Returned<T>(out: Option<T>): seq<T> {
    if out.Some? then [out.value] else []
  }

  /** The values pushed during a run, in push order. */
  function Pushed<T>(ops: seq<QueueOp<T>>): seq<T>
    decreases |ops|
  {
    if ops == [] then []
    else (if ops[0].PushOp? then [ops[0].value] else []) + Pushed(ops[1..])
  }

  /**
   * FIFO under any interleaving of pushes and pops: what was popped, followed
   * by what is left, is what was there plus what was pushed, in push order.
   * Nothing is lost, duplicated or reordered.
   */
  lemma {:induction false} RunIsFifo<T>(q: seq<T>, ops: seq<QueueOp<T>>)
    ensures Run(q, ops).1 + Run(q, ops).0 == q + Pushed(ops)
    decreases |ops|
  {
    if ops != [] {
      var step := Apply(q, ops[0]);
      var rest := Run(step.0, ops[1..]);
      var pushed0 := if ops[0].PushOp? then [ops[0].value] else [];
      assert Pushed(ops) == pushed0 + Pushed(ops[1..]);
      calc {
        Run(q, ops).1 + Run(q, ops).0;
        (Returned(step.1) + rest.1) + rest.0;
        { AppendAssoc(Returned(step.1), rest.1, rest.0); }
        Returned(step.1) + (rest.1 + rest.0);
        { RunIsFifo(step.0, ops[1..]); }
        Returned(step.1) + (step.0 + Pushed(ops[1..]));
        { AppendAssoc(Returned(step.1), step.0, Pushed(ops[1..])); }
        (Returned(step.1) + step.0) + Pushed(ops[1..]);
        { ApplyIsFifo(q, ops[0]); }
        (q + pushed0) + Pushed(ops[1..]);
        { AppendAssoc(q, pushed0, Pushed(ops[1..])); }
        q + Pushed(ops);
      }
    }
  }

  lemma AppendAssoc<T>(a: seq<T>, b: seq<T>, c: seq<T>)
    ensures (a + b) + c == a + (b + c)
  {
  }

  /** One call keeps the order: what it returned, followed by what is left, is what was there plus what it pushed. */
  lemma ApplyIsFifo<T>(q: seq<T>, op: QueueOp<T>)
    ensures Returned(Apply(q, op).1) + Apply(q, op).0 == q + (if op.PushOp? then [op.value] else [])
  {
    if op.PopOp? && q != [] {
      assert q == [q[0]] + q[1..];
    }
  }

  /** Popping the front of `q` moves it from what is left to the end of what was popped. */
  lemma PopMovesFront<T>(popped: seq<T>, q: seq<T>)
    requires q != []
    ensures popped + q == (popped + [q[0]]) + q[1..]
  {
    assert q == [q[0]] + q[1..];
  }

  lemma RunSize<T>(q: seq<T>, ops: seq<QueueOp<T>>)
    ensures |Run(q, ops).0| == |q| + |Pushed(ops)| - |Run(q, ops).1|
  {
    RunIsFifo(q, ops);
    assert |Run(q, ops).1 + Run(q, ops).0| == |q + Pushed(ops)|;
  }

  function Pushes<T>(xs: seq<T>): (ops: seq<QueueOp<T>>)
    ensures |ops| == |xs| && Pushed(ops) == xs
    decreases |xs|
  {
    if xs == [] then [] else [PushOp(xs[0])] + Pushes(xs[1..])
  }

  function Pops<T>(n: nat): (ops: seq<QueueOp<T>>)
    ensures |ops| == n && Pushed(ops) == []
  {
    if n == 0 then [] else [PopOp] + Pops(n - 1)
  }

  /** `n` pops on a queue of at least `n` elements return its first `n` elements. */
  lemma {:induction false} PopsReturnFront<T>(q: seq<T>, n: nat)
    requires n <= |q|
    ensures Run(q, Pops<T>(n)) == (q[n..], q[..n])
    decreases n
  {
    if n > 0 {
      var ops: seq<QueueOp<T>> := Pops(n);
      assert ops[0] == PopOp && ops[1..] == Pops<T>(n - 1);
      PopsReturnFront(q[1..], n - 1);
      assert q[1..][n - 1..] == q[n..];
      assert [q[0]] + q[1..][..n - 1] == q[..n];
    }
  }

  lemma {:induction false} PushesAppend<T>(q: seq<T>, xs: seq<T>, rest: seq<QueueOp<T>>)
    ensures Run(q, Pushes(xs) + rest) == Run(q + xs, rest)
    decreases |xs|
  {
    if xs != [] {
      var ops := Pushes(xs) + rest;
      assert ops[0] == PushOp(xs[0]);
      assert ops[1..] == Pushes(xs[1..]) + rest;
      PushesAppend(q + [xs[0]], xs[1..], rest);
      assert q + [xs[0]] + xs[1..] == q + xs;
      var r := Run(q + [xs[0]], ops[1..]);
      assert Apply(q, ops[0]) == (q + [xs[0]], None);
      assert Run(q, ops) == (r.0, Returned<T>(None) + r.1);
      assert Returned<T>(None) + r.1 == r.1;
      assert r == Run(q + xs, rest);
      assert (r.0, r.1) == r;
    } else {
      assert Pushes(xs) + rest == rest && q + xs == q;
    }
  }

  /** After pushing a1..an on an empty queue, n successive pops return a1..an and leave it empty. */
  lemma {:induction false} PushesThenPopsReturnInOrder<T>(xs: seq<T>)
    ensures Run([], Pushes(xs) + Pops<T>(|xs|)) == ([], xs)
  {
    var empty: seq<T> := [];
    PushesAppend(empty, xs, Pops<T>(|xs|));
    assert empty + xs == xs;
    PopsReturnFront(xs, |xs|);
    assert xs[|xs|..] == empty && xs[..|xs|] == xs;
  }

  class LockedQueue<T> {
    /** data_queue, front first. */
    var items: seq<T>

    constructor ()
      ensures items == []
    {
      items := [];
    }

    /** push: append at the back. */
    method Push(value: T)
      modifies this
      ensures items == Apply(old(items), PushOp(value)).0
      ensures items == old(items) + [value]
    {
      items := items + [value];
    }

    /** pop: the front element, removed; None (nullptr) and no change on an empty queue. */
    method Pop() returns (r: Option<T>)
      modifies this
      ensures (items, r) == Apply(old(items), PopOp)
      ensures old(items) == [] ==> r == None && items == old(items)
      ensures old(items) != [] ==> r == Some(old(items)[0]) && items == old(items)[1..]
    {
      if items == [] {
        return None;
      }
      r := Some(items[0]);
      items := items[1..];
    }

    method Empty() returns (b: bool)
      ensures b <==> items == []
    {
      b := items == [];
    }

    method Size() returns (n: nat)
      ensures n == |items|
      ensures n == 0 <==> items == []
    {
      n := |items|;
    }
  }
}

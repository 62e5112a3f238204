/** Reads waiting for their index to be applied: the slice of waiters, filtered in place. */
module PendingReads {
  import opened Types

  /** A waiter and the identity of its done channel. */
  datatype Waiter = Waiter(readIndex: nat, done: nat)

  /**
   Channel t was made for a read of index asked[t]. `closed` and `cancelled` list the channels closed
   by the apply loop and the ones their readers gave up on.
   */
  datatype Queue = Queue(pending: seq<Waiter>, closed: seq<nat>, cancelled: seq<nat>, asked: seq<nat>, applied: nat)

  // ---------------------------------------------------------------- the filter

  function Kept(ws: seq<Waiter>, applied: nat): seq<Waiter> {
    if ws == [] then []
    else Kept(ws[..|ws| - 1], applied) + if applied >= ws[|ws| - 1].readIndex then [] else [ws[|ws| - 1]]
  }

  function Released(ws: seq<Waiter>, applied: nat): seq<nat> {
    if ws == [] then []
    else Released(ws[..|ws| - 1], applied) + if applied >= ws[|ws| - 1].readIndex then [ws[|ws| - 1].done] else []
  }

  function Channels(ws: seq<Waiter>): (ds: seq<nat>)
    ensures |ds| == |ws| && forall i | 0 <= i < |ws| :: ds[i] == ws[i].done
  {
    seq(|ws|, i requires 0 <= i < |ws| => ws[i].done)
  }

  /** Exactly the waiters above `applied` stay; exactly the others' channels are closed. */
  lemma {:induction false} FilterExact(ws: seq<Waiter>, applied: nat)
    ensures |Kept(ws, applied)| <= |ws|
    ensures forall w :: w in Kept(ws, applied) <==> w in ws && w.readIndex > applied
    ensures forall d :: d in Released(ws, applied) <==> exists w :: w in ws && w.done == d && w.readIndex <= applied
  {
    if ws != [] {
      var init, last := ws[..|ws| - 1], ws[|ws| - 1];
      FilterExact(init, applied);
      assert ws == init + [last];
    }
  }

  lemma ChannelsJoin(a: seq<Waiter>, b: seq<Waiter>)
    ensures Channels(a + b) == Channels(a) + Channels(b)
    ensures multiset(Channels(a + b)) == multiset(Channels(a)) + multiset(Channels(b))
  {
  }

  lemma ChannelsOne(w: Waiter)
    ensures Channels([w]) == [w.done]
  {
  }

  /** No channel is lost and none is doubled. */
  lemma {:induction false} FilterConserves(ws: seq<Waiter>, applied: nat)
    ensures multiset(Channels(Kept(ws, applied))) + multiset(Released(ws, applied)) == multiset(Channels(ws))
  {
    hide Channels;
    if ws == [] {
      assert Channels(ws) == [] by { ChannelsJoin(ws, ws); }
    } else {
      var init, last := ws[..|ws| - 1], ws[|ws| - 1];
      FilterConserves(init, applied);
      ChannelsJoin(init, [last]);
      ChannelsOne(last);
      assert ws == init + [last];
      if applied < last.readIndex {
        ChannelsJoin(Kept(init, applied), [last]);
        assert Released(ws, applied) == Released(init, applied);
      } else {
        assert Kept(ws, applied) == Kept(init, applied);
      }
    }
  }

  /** Whoever stays, stays in order of arrival. */
  lemma {:induction false} FilterOrder(ws: seq<Waiter>, applied: nat, p: nat, q: nat) returns (i: nat, j: nat)
    requires p < q < |Kept(ws, applied)|
    ensures i < j < |ws| && ws[i] == Kept(ws, applied)[p] && ws[j] == Kept(ws, applied)[q]
  {
    var init, last := ws[..|ws| - 1], ws[|ws| - 1];
    if q < |Kept(init, applied)| {
      i, j := FilterOrder(init, applied, p, q);
    } else {
      FilterExact(init, applied);
      assert Kept(init, applied)[p] in Kept(init, applied);
      i :| 0 <= i < |init| && init[i] == Kept(init, applied)[p];
      j := |ws| - 1;
    }
  }

  // ---------------------------------------------------------------- the queue's life

  function Empty(): Queue {
    Queue([], [], [], [], 0)
  }

  /** waitForApplied when the index is not applied yet. */
  function Enqueue(q: Queue, index: nat): Queue {
    q.(pending := q.pending + [Waiter(index, |q.asked|)], asked := q.asked + [index])
  }

  function Position(ws: seq<Waiter>, done: nat): (i: nat)
    ensures i <= |ws| && (i < |ws| ==> ws[i].done == done)
    ensures forall k | 0 <= k < i :: ws[k].done != done
  {
    if ws == [] || ws[0].done == done then 0 else 1 + Position(ws[1..], done)
  }

  /** removePending: splices the waiter out, if it still waits. */
  function Withdraw(q: Queue, done: nat): Queue {
    var i := Position(q.pending, done);
    if i == |q.pending| then q
    else q.(pending := q.pending[..i] + q.pending[i + 1..], cancelled := q.cancelled + [done])
  }

  function Advance(q: Queue, applied: nat): Queue {
    q.(pending := Kept(q.pending, applied), closed := q.closed + Released(q.pending, applied), applied := applied)
  }

  /** Every channel ever made, once. */
  function Issued(n: nat): (ds: seq<nat>)
    ensures |ds| == n && forall i | 0 <= i < n :: ds[i] == i
  {
    seq(n, i => i)
  }

  predicate Known(q: Queue) {
    && (forall w | w in q.pending :: w.done < |q.asked| && w.readIndex == q.asked[w.done])
    && (forall d | d in q.closed :: d < |q.asked|)
  }

  /** Each channel is pending, closed or cancelled, and only one of these, once; pending means not yet applied. */
  predicate Accounted(q: Queue) {
    && Known(q)
    && multiset(Channels(q.pending)) + multiset(q.closed) + multiset(q.cancelled) == multiset(Issued(|q.asked|))
    && (forall w | w in q.pending :: q.applied < w.readIndex)
    && (forall d | d in q.closed :: q.asked[d] <= q.applied)
  }

  lemma IssuedOnce(n: nat, d: nat)
    ensures multiset(Issued(n))[d] == if d < n then 1 else 0
  {
    if n > 0 {
      IssuedOnce(n - 1, d);
      assert Issued(n) == Issued(n - 1) + [n - 1];
    }
  }

  /** What the accounting means: no channel is closed twice, or closed and still pending. */
  lemma ClosedOnce(q: Queue)
    requires Accounted(q)
    ensures forall i, j | 0 <= i < j < |q.closed| :: q.closed[i] != q.closed[j]
    ensures forall w | w in q.pending :: w.done !in q.closed && w.done !in q.cancelled
  {
    forall i, j | 0 <= i < j < |q.closed| ensures q.closed[i] != q.closed[j] {
      if q.closed[i] == q.closed[j] {
        var d := q.closed[i];
        assert q.closed == q.closed[..j] + [d] + q.closed[j + 1..];
        assert q.closed[..j][i] == d;
        assert multiset(q.closed)[d] >= 2;
        IssuedOnce(|q.asked|, d);
      }
    }
    forall w | w in q.pending ensures w.done !in q.closed && w.done !in q.cancelled {
      IssuedOnce(|q.asked|, w.done);
      var i :| 0 <= i < |q.pending| && q.pending[i] == w;
      assert Channels(q.pending)[i] == w.done;
      assert w.done in multiset(Channels(q.pending));
    }
  }

  lemma EnqueueAccounted(q: Queue, index: nat)
    requires Accounted(q) && q.applied < index
    ensures Accounted(Enqueue(q, index))
  {
    var q' := Enqueue(q, index);
    assert Channels(q'.pending) == Channels(q.pending) + [|q.asked|];
    assert Issued(|q'.asked|) == Issued(|q.asked|) + [|q.asked|];
  }

  lemma SpliceChannels(ws: seq<Waiter>, i: nat)
    requires i < |ws|
    ensures multiset(Channels(ws)) == multiset(Channels(ws[..i] + ws[i + 1..])) + multiset{ws[i].done}
    ensures forall w | w in ws[..i] + ws[i + 1..] :: w in ws
  {
    hide Channels;
    var l, r := ws[..i], ws[i + 1..];
    assert ws == l + ([ws[i]] + r);
    ChannelsJoin(l, [ws[i]] + r);
    ChannelsJoin([ws[i]], r);
    ChannelsOne(ws[i]);
    ChannelsJoin(l, r);
  }

  lemma WithdrawAccounted(q: Queue, done: nat)
    requires Accounted(q)
    ensures Accounted(Withdraw(q, done))
  {
    hide Channels, Issued, Known;
    var i := Position(q.pending, done);
    if i < |q.pending| {
      SpliceChannels(q.pending, i);
      var q' := Withdraw(q, done);
      assert q'.cancelled == q.cancelled + [done];
      Splits(multiset(Channels(q.pending)), multiset(Channels(q'.pending)), multiset(q.closed), multiset(q.cancelled), done);
      assert multiset(q'.cancelled) == multiset(q.cancelled) + multiset{done};
      FewerKnown(q, q');
    }
  }

  lemma Splits(a: multiset<nat>, b: multiset<nat>, c: multiset<nat>, d: multiset<nat>, x: nat)
    requires a == b + multiset{x}
    ensures a + c + d == b + c + (d + multiset{x})
  {
  }

  lemma FewerKnown(q: Queue, q': Queue)
    requires Known(q) && q'.closed == q.closed && q'.asked == q.asked && forall w | w in q'.pending :: w in q.pending
    ensures Known(q')
  {
  }

  lemma AdvanceAccounted(q: Queue, applied: nat)
    requires Accounted(q) && q.applied <= applied
    ensures Accounted(Advance(q, applied))
  {
    hide Channels, Issued;
    FilterExact(q.pending, applied);
    FilterConserves(q.pending, applied);
  }

  /** What happens to the queue: a read waits, a reader gives up, the apply loop moves on. */
  datatype Event = Wait(index: nat) | GiveUp(done: nat) | Applied(index: nat)

  predicate Possible(q: Queue, e: Event) {
    match e
    case Wait(index) => q.applied < index
    case GiveUp(_) => true
    case Applied(index) => q.applied <= index
  }

  function Happen(q: Queue, e: Event): Queue {
    match e
    case Wait(index) => Enqueue(q, index)
    case GiveUp(done) => Withdraw(q, done)
    case Applied(index) => Advance(q, index)
  }

  predicate IsRun(qs: seq<Queue>, es: seq<Event>) {
    && |qs| == |es| + 1 && qs[0] == Empty()
    && forall i | 0 <= i < |es| :: Possible(qs[i], es[i]) && qs[i + 1] == Happen(qs[i], es[i])
  }

  /** Over any run every channel is accounted for, so none is closed twice. */
  lemma {:induction false} RunAccounted(qs: seq<Queue>, es: seq<Event>, n: nat)
    requires IsRun(qs, es) && n < |qs|
    ensures Accounted(qs[n])
  {
    hide Possible, Happen;
    if n > 0 {
      RunAccounted(qs, es, n - 1);
      assert Possible(qs[n - 1], es[n - 1]) && qs[n] == Happen(qs[n - 1], es[n - 1]);
      EventAccounted(qs[n - 1], es[n - 1]);
    }
  }

  lemma EventAccounted(q: Queue, e: Event)
    requires Accounted(q) && Possible(q, e)
    ensures Accounted(Happen(q, e))
  {
    hide Accounted;
    match e
    case Wait(index) => EnqueueAccounted(q, index);
    case GiveUp(done) => WithdrawAccounted(q, done);
    case Applied(index) => AdvanceAccounted(q, index);
  }

  /**
   Over any run: a channel is closed at most once, and a read that has not given up is closed exactly when its index
   is applied.
   */
  lemma ClosedExactly(qs: seq<Queue>, es: seq<Event>, n: nat, d: nat)
    requires IsRun(qs, es) && n < |qs| && d < |qs[n].asked| && d !in qs[n].cancelled
    ensures d in qs[n].closed <==> qs[n].asked[d] <= qs[n].applied
    ensures multiset(qs[n].closed)[d] <= 1
  {
    hide IsRun, Issued;
    RunAccounted(qs, es, n);
    var q := qs[n];
    IssuedOnce(|q.asked|, d);
    if d !in q.closed {
      assert d in multiset(Channels(q.pending));
      var i :| 0 <= i < |q.pending| && Channels(q.pending)[i] == d;
      assert q.pending[i] in q.pending;
    }
  }

  // ---------------------------------------------------------------- the slice

  class ReadQueue {
    var buffer: array<Waiter>
    var size: nat
    var closed: seq<nat>
    var made: nat
    var lastApplied: nat
    ghost var cancelled: seq<nat>
    ghost var asked: seq<nat>

    ghost function State(): Queue
      requires size <= buffer.Length
      reads this, buffer
    {
      Queue(buffer[..size], closed, cancelled, asked, lastApplied)
    }

    ghost predicate Valid()
      reads this, buffer
    {
      size <= buffer.Length && made == |asked| && Accounted(State())
    }

    constructor ()
      ensures Valid() && State() == Empty() && fresh(buffer)
    {
      buffer := new Waiter[0];
      size, closed, made, lastApplied, cancelled, asked := 0, [], 0, 0, [], [];
      new;
      assert State() == Empty();
    }

    /** waitForApplied up to the wait: None when the read may go ahead at once. */
    method WaitForApplied(index: nat) returns (done: Option<nat>)
      requires Valid()
      modifies this, buffer
      ensures Valid() && (buffer == old(buffer) || fresh(buffer))
      ensures done.None? <==> index <= old(lastApplied)
      ensures State() == if done.None? then old(State()) else Enqueue(old(State()), index)
      ensures done.Some? ==> done.value == |old(asked)|
    {
      if lastApplied >= index {
        return None;
      }
      hide Accounted;
      EnqueueAccounted(State(), index);
      if size == buffer.Length {
        Grow();
      }
      buffer[size] := Waiter(index, made);
      done := Some(made);
      size := size + 1;
      made := made + 1;
      asked := asked + [index];
      assert State() == Enqueue(old(State()), index);
    }

    /** append's reallocation. */
    method Grow()
      requires size <= buffer.Length
      modifies this`buffer
      ensures fresh(buffer) && size < buffer.Length && buffer[..size] == old(buffer[..size])
    {
      var bigger := new Waiter[2 * buffer.Length + 1](_ => Waiter(0, 0));
      var i := 0;
      while i < size
        modifies bigger
        invariant 0 <= i <= size
        invariant bigger[..i] == buffer[..i]
      {
        bigger[i] := buffer[i];
        i := i + 1;
      }
      buffer := bigger;
    }

    method RemovePending(done: nat)
      requires Valid()
      modifies this, buffer
      ensures Valid() && buffer == old(buffer) && State() == Withdraw(old(State()), done)
    {
      hide Accounted;
      ghost var q := State();
      WithdrawAccounted(q, done);
      var i := 0;
      while i < size && buffer[i].done != done
        invariant 0 <= i <= size
        invariant forall k | 0 <= k < i :: buffer[k].done != done
      {
        i := i + 1;
      }
      assert i == Position(q.pending, done);
      if i < size {
        ShiftDown(i);
        cancelled := cancelled + [done];
      }
      assert State() == Withdraw(q, done);
    }

    method ShiftDown(i: nat)
      requires i < size <= buffer.Length
      modifies this`size, buffer
      ensures size == old(size) - 1
      ensures buffer[..size] == old(buffer[..i]) + old(buffer[i + 1..size])
    {
      var k := i;
      while k + 1 < size
        modifies buffer
        invariant i <= k < size
        invariant forall q | 0 <= q < i :: buffer[q] == old(buffer[q])
        invariant forall q | i <= q < k :: buffer[q] == old(buffer[q + 1])
        invariant forall q | k < q < size :: buffer[q] == old(buffer[q])
      {
        buffer[k] := buffer[k + 1];
        k := k + 1;
      }
      size := size - 1;
    }

    /** The apply loop moved lastApplied. */
    method SatisfyPending(applied: nat)
      requires Valid() && lastApplied <= applied
      modifies this, buffer
      ensures Valid() && buffer == old(buffer) && State() == Advance(old(State()), applied)
    {
      hide Accounted;
      ghost var q := State();
      AdvanceAccounted(q, applied);
      lastApplied := applied;
      Filter();
      assert State() == Advance(q, applied);
    }

    /** The slice is read at i and written at j, never ahead of the reading. */
    method Filter()
      requires size <= buffer.Length
      modifies this`size, this`closed, buffer
      ensures size <= buffer.Length
      ensures buffer[..size] == Kept(old(buffer[..size]), lastApplied)
      ensures closed == old(closed) + Released(old(buffer[..size]), lastApplied)
    {
      ghost var ws, released := buffer[..size], [];
      var i, j := 0, 0;
      while i < size
        modifies this`closed, buffer
        invariant 0 <= j <= i <= size
        invariant buffer[..j] == Kept(ws[..i], lastApplied)
        invariant forall k | i <= k < size :: buffer[k] == ws[k]
        invariant released == Released(ws[..i], lastApplied) && closed == old(closed) + released
      {
        var w := buffer[i];
        assert w == ws[i] && ws[..i + 1][..i] == ws[..i];
        if lastApplied >= w.readIndex {
          closed := closed + [w.done];
          released := released + [w.done];
        } else {
          buffer[j] := w;
          j := j + 1;
        }
        i := i + 1;
      }
      assert ws[..size] == ws;
      size := j;
    }
  }

}

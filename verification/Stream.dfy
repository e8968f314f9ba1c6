/** The bounded drop-oldest queue under an async iterator (zeared/stream.py). */
module Stream {

  datatype Item = Data(value: int) | End | Raise

  /** The queue and its drop count. `maxsize` 0 is unbounded. */
  datatype Queue = Queue(items: seq<Item>, dropped: nat)

  /** `_put`: a full bounded queue gives up its oldest item for a data item, never for a marker. */
  function Put(q: Queue, item: Item, maxsize: nat): Queue {
    if maxsize > 0 && item.Data? && |q.items| >= maxsize then Queue(q.items[1..] + [item], q.dropped + 1)
    else Queue(q.items + [item], q.dropped)
  }

  class Channel {
    const maxsize: nat
    var items: seq<Item>
    var dropped: nat
    var warned: bool
    var closed: bool

    function View(): Queue
      reads this
    {
      Queue(items, dropped)
    }

    ghost predicate Valid()
      reads this
    {
      warned <==> dropped > 0
    }

    constructor (maxsize: nat)
      ensures Valid() && View() == Queue([], 0) && !closed && this.maxsize == maxsize
    {
      this.maxsize := maxsize;
      items, dropped, warned, closed := [], 0, false, false;
    }

    method PutItem(item: Item) returns (logged: bool)
      requires Valid()
      modifies this`items, this`dropped, this`warned
      ensures Valid() && View() == Put(old(View()), item, maxsize)
      ensures logged <==> old(dropped) == 0 && dropped > 0
    {
      logged := false;
      var bounded := maxsize > 0 && item.Data?;
      if bounded && |items| >= maxsize {
        items := items[1..];
        dropped := dropped + 1;
        if !warned {
          warned := true;
          logged := true;
        }
      }
      items := items + [item];
    }

    /** `end`: a failed source feeds its exception first. */
    method Finish(failed: bool)
      requires Valid()
      modifies this`items, this`dropped, this`warned
      ensures Valid() && dropped == old(dropped)
      ensures items == old(items) + (if failed then [Raise, End] else [End])
    {
      if failed {
        var _ := PutItem(Raise);
      }
      var _ := PutItem(End);
    }

    /** `aclose`: the marker wakes a consumer that is already waiting. */
    method Close()
      modifies this`items, this`closed
      ensures closed
      ensures items == if old(closed) then old(items) else old(items) + [End]
    {
      if closed {
        return;
      }
      closed := true;
      items := items + [End];
    }

    /** `__anext__` once an item is there, or on a closed stream. A marker closes the stream. */
    method Next() returns (item: Item)
      requires closed || items != []
      modifies this`items, this`closed
      ensures old(closed) ==> item == End && items == old(items)
      ensures !old(closed) ==> item == old(items)[0]
      ensures !old(closed) && item.Data? ==> items == old(items)[1..] && !closed
      ensures !old(closed) && !item.Data? ==> items == old(items)[1..] + [End] && closed
    {
      if closed {
        return End;
      }
      item := items[0];
      items := items[1..];
      if !item.Data? {
        Close();
      }
    }
  }

  // ---------------------------------------------------------------- every interleaving

  datatype Op = Feed(value: int) | Get

  /** What has gone through an open stream: put, taken out by the consumer, and what is left. */
  datatype Traffic = Traffic(queue: Queue, put: seq<Item>, delivered: seq<Item>)

  /** One operation; a get on an empty queue waits. */
  function Step(t: Traffic, op: Op, maxsize: nat): Traffic {
    match op
    case Feed(v) => Traffic(Put(t.queue, Data(v), maxsize), t.put + [Data(v)], t.delivered)
    case Get =>
      if t.queue.items == [] then t
      else Traffic(Queue(t.queue.items[1..], t.queue.dropped), t.put, t.delivered + [t.queue.items[0]])
  }

  function After(ops: seq<Op>, maxsize: nat): Traffic {
    if ops == [] then Traffic(Queue([], 0), [], [])
    else Step(After(ops[..|ops|-1], maxsize), ops[|ops|-1], maxsize)
  }

  /** `sub` is `all` with some items left out, in order. */
  ghost predicate Subsequence(sub: seq<Item>, all: seq<Item>) {
    sub == [] || (all != [] &&
      if sub[|sub|-1] == all[|all|-1] then
        Subsequence(sub[..|sub|-1], all[..|all|-1]) || Subsequence(sub, all[..|all|-1])
      else Subsequence(sub, all[..|all|-1]))
  }

  lemma SubsequenceSkip(sub: seq<Item>, all: seq<Item>, x: Item)
    requires Subsequence(sub, all)
    ensures Subsequence(sub, all + [x])
  {
    assert (all + [x])[..|all|] == all;
  }

  lemma SubsequenceTake(sub: seq<Item>, all: seq<Item>, x: Item)
    requires Subsequence(sub, all)
    ensures Subsequence(sub + [x], all + [x])
  {
    assert (all + [x])[..|all|] == all && (sub + [x])[..|sub|] == sub;
  }

  /** `gone` has left the queue, which holds the rest of what was put. */
  ghost predicate Fresh(t: Traffic, gone: seq<Item>, maxsize: nat) {
    && t.put == gone + t.queue.items
    && |t.delivered| + t.queue.dropped == |gone|
    && Subsequence(t.delivered, gone)
    && (maxsize > 0 ==> |t.queue.items| <= maxsize)
    && (maxsize == 0 ==> t.queue.dropped == 0)
  }

  lemma StepKeepsFresh(t: Traffic, gone: seq<Item>, op: Op, maxsize: nat) returns (gone': seq<Item>)
    requires Fresh(t, gone, maxsize)
    ensures Fresh(Step(t, op, maxsize), gone', maxsize)
  {
    var items := t.queue.items;
    var leaves := if op.Feed? then maxsize > 0 && |items| >= maxsize else items != [];
    if leaves {
      gone' := gone + [items[0]];
      assert gone + items == gone' + items[1..];
      if op.Feed? {
        SubsequenceSkip(t.delivered, gone, items[0]);
      } else {
        SubsequenceTake(t.delivered, gone, items[0]);
      }
    } else {
      gone' := gone;
    }
  }

  /** Every item put is delivered, dropped or queued, in that order of age: the queue is the newest of them,
      within the bound, and what was delivered came out in order. */
  lemma {:induction false} FreshestSurvive(ops: seq<Op>, maxsize: nat) returns (gone: seq<Item>)
    ensures Fresh(After(ops, maxsize), gone, maxsize)
  {
    if ops == [] {
      gone := [];
    } else {
      gone := FreshestSurvive(ops[..|ops|-1], maxsize);
      gone := StepKeepsFresh(After(ops[..|ops|-1], maxsize), gone, ops[|ops|-1], maxsize);
    }
  }

  /** The data a consumer takes before the first marker; the rest, marker first. */
  function Drained(items: seq<Item>): (r: (seq<Item>, seq<Item>))
    ensures r.0 + r.1 == items
  {
    if items == [] || !items[0].Data? then ([], items)
    else
      var rest := Drained(items[1..]);
      ([items[0]] + rest.0, rest.1)
  }

  /** A source that feeds nothing after its end never has the marker evicted: whatever it fed before, the
      consumer takes all that is queued, in order, and then the marker. */
  lemma {:induction false} EndIsReached(items: seq<Item>, markers: seq<Item>)
    requires forall i :: 0 <= i < |items| ==> items[i].Data?
    requires markers != [] && !markers[0].Data?
    ensures Drained(items + markers) == (items, markers)
  {
    if items == [] {
      assert items + markers == markers;
    } else {
      EndIsReached(items[1..], markers);
      assert (items + markers)[1..] == items[1..] + markers;
      assert [items[0]] + items[1..] == items;
    }
  }

  /** Together: after any operations, ending the stream leaves the queued suffix and then the markers. */
  lemma EndAfterAnything(ops: seq<Op>, maxsize: nat, failed: bool)
    ensures var q := After(ops, maxsize).queue;
      var ended := if failed then Put(Put(q, Raise, maxsize), End, maxsize) else Put(q, End, maxsize);
      && Drained(ended.items) == (q.items, if failed then [Raise, End] else [End])
      && ended.dropped == q.dropped
  {
    OnlyData(ops, maxsize);
    var q := After(ops, maxsize).queue;
    EndIsReached(q.items, if failed then [Raise, End] else [End]);
    assert q.items + [Raise] + [End] == q.items + [Raise, End];
  }

  lemma {:induction false} OnlyData(ops: seq<Op>, maxsize: nat)
    ensures forall i :: 0 <= i < |After(ops, maxsize).queue.items| ==> After(ops, maxsize).queue.items[i].Data?
  {
    if ops != [] {
      OnlyData(ops[..|ops|-1], maxsize);
    }
  }

  // ---------------------------------------------------------------- a source that feeds on

  function Fed(values: seq<int>): seq<Item> {
    seq(|values|, i requires 0 <= i < |values| => Data(values[i]))
  }

  function FeedAll(q: Queue, values: seq<int>, maxsize: nat): Queue {
    if values == [] then q
    else Put(FeedAll(q, values[..|values|-1], maxsize), Data(values[|values|-1]), maxsize)
  }

  function Room(length: nat, maxsize: nat): nat {
    if length < maxsize then maxsize - length else 0
  }

  /** How many items `feeds` puts, with no get between them, push out of a queue of `length`. */
  function PushedOut(length: nat, feeds: nat, maxsize: nat): (n: nat)
    ensures n <= feeds
  {
    if maxsize == 0 || feeds <= Room(length, maxsize) then 0 else feeds - Room(length, maxsize)
  }

  lemma {:induction false} FeedsPushOut(q: Queue, values: seq<int>, maxsize: nat)
    ensures var n := PushedOut(|q.items|, |values|, maxsize);
      FeedAll(q, values, maxsize) == Queue((q.items + Fed(values))[n..], q.dropped + n)
  {
    if values == [] {
      assert q.items + Fed(values) == q.items;
    } else {
      var k := |values| - 1;
      FeedsPushOut(q, values[..k], maxsize);
      var was, all := q.items + Fed(values[..k]), q.items + Fed(values);
      assert all == was + [Data(values[k])];
      var m := PushedOut(|q.items|, k, maxsize);
      assert was[m..] + [Data(values[k])] == all[m..];
    }
  }

  /** When a source that feeds on pushes out what is queued, marker or not, for any queue and bound: what goes goes
      from the front, and the item with `n` ahead of it goes exactly when the feeds outnumber the room left and those
      `n` together. */
  lemma MarkerIsPushedOutExactly(q: Queue, n: nat, values: seq<int>, maxsize: nat)
    requires n < |q.items|
    ensures var q' := FeedAll(q, values, maxsize);
      var gone := q'.dropped - q.dropped;
      && 0 <= gone <= |values| && q'.items == (q.items + Fed(values))[gone..]
      && (gone <= n ==> q'.items[n - gone] == q.items[n])
      && (gone > n <==> maxsize > 0 && |values| > Room(|q.items|, maxsize) + n)
  {
    FeedsPushOut(q, values, maxsize);
  }

  lemma {:induction false} WholeSubsequence(sub: seq<Item>, all: seq<Item>)
    requires Subsequence(sub, all)
    ensures |sub| <= |all| && (|sub| == |all| ==> sub == all)
  {
    if sub != [] {
      if sub[|sub|-1] == all[|all|-1] && Subsequence(sub[..|sub|-1], all[..|all|-1]) {
        WholeSubsequence(sub[..|sub|-1], all[..|all|-1]);
        assert sub == sub[..|sub|-1] + [sub[|sub|-1]] && all == all[..|all|-1] + [all[|all|-1]];
      } else {
        WholeSubsequence(sub, all[..|all|-1]);
      }
    }
  }

  /** An unbounded stream loses nothing: what was put is what was delivered and then what is queued. */
  lemma UnboundedLosesNothing(ops: seq<Op>)
    ensures After(ops, 0).put == After(ops, 0).delivered + After(ops, 0).queue.items
    ensures After(ops, 0).queue.dropped == 0
  {
    var gone := FreshestSurvive(ops, 0);
    WholeSubsequence(After(ops, 0).delivered, gone);
  }
}

/** The lockable FIFO bucket: items added while it is locked or flushing wait
    in a queue; unlocking or flushing runs them front first. The functions it
    calls are recorded in a log instead of being run. */
module Buckets {

  /** A queued call: the function (by identity) and its argument. */
  datatype Item = Item(func: nat, data: int)

  /** What the bucket has called, in order: an item's function on its
      argument, or the callback `shift` was given. */
  datatype Call = Ran(item: Item) | Callback

  /** The calls that running `items` in order makes. */
  function Runs(items: seq<Item>): (r: seq<Call>)
    ensures |r| == |items|
    ensures forall i :: 0 <= i < |items| ==> r[i] == Ran(items[i])
  {
    seq(|items|, i requires 0 <= i < |items| => Ran(items[i]))
  }

  /** Running a queue in two parts makes the calls of the whole queue. */
  lemma RunsConcat(a: seq<Item>, b: seq<Item>)
    ensures Runs(a + b) == Runs(a) + Runs(b)
  {
  }

  class Bucket {
    var queue: seq<Item>
    var flushing: bool
    var locked: bool
    var log: seq<Call>

    /** Between calls nothing is flushing, and an unlocked bucket holds
        nothing back. */
    predicate Valid()
      reads this
    {
      !flushing && (!locked ==> queue == [])
    }

    constructor()
      ensures queue == [] && !flushing && locked && log == []
      ensures Valid()
    {
      queue := [];
      flushing := false;
      locked := true;
      log := [];
    }

    method Lock()
      modifies this
      ensures locked && queue == old(queue) && flushing == old(flushing) && log == old(log)
      ensures old(Valid()) ==> Valid()
    {
      locked := true;
    }

    /** Runs the item at once if the bucket is open, or queues it. */
    method Add(item: Item)
      modifies this
      ensures old(locked) || old(flushing) ==> queue == old(queue) + [item] && log == old(log)
      ensures !old(locked) && !old(flushing) ==> queue == old(queue) && log == old(log) + [Ran(item)]
      ensures locked == old(locked) && flushing == old(flushing)
      ensures old(Valid()) ==> Valid()
    {
      if locked || flushing {
        queue := queue + [item];
      } else {
        log := log + [Ran(item)];
      }
    }

    /** Drains the queue front first unless the bucket is locked, then clears
        `flushing` and calls the callback, if there is one. */
    method Shift(callback: bool)
      modifies this
      ensures old(locked) ==> queue == old(queue) && flushing == old(flushing) && log == old(log)
      ensures !old(locked) ==>
        queue == [] && !flushing &&
        log == old(log) + Runs(old(queue)) + (if callback then [Callback] else [])
      ensures locked == old(locked)
    {
      if locked {
        return;
      }
      ghost var ran: seq<Item> := [];
      while queue != []
        invariant !locked
        invariant ran + queue == old(queue)
        invariant log == old(log) + Runs(ran)
        decreases |queue|
      {
        var item := queue[0];
        queue := queue[1..];
        log := log + [Ran(item)];
        RunsConcat(ran, [item]);
        ran := ran + [item];
      }
      flushing := false;
      if callback {
        log := log + [Callback];
      }
    }

    /** Opens the bucket and runs everything it held. */
    method Unlock()
      modifies this
      ensures !locked && queue == [] && !flushing
      ensures log == old(log) + Runs(old(queue))
      ensures Valid()
    {
      locked := false;
      Shift(false);
    }

    /** Opens the bucket, runs everything it held and then resolves. */
    method Flush()
      modifies this
      ensures !locked && queue == [] && !flushing
      ensures log == old(log) + Runs(old(queue)) + [Callback]
      ensures Valid()
    {
      flushing := true;
      locked := false;
      Shift(true);
    }

    /** Drops whatever is queued and locks the bucket again. */
    method Reset()
      modifies this
      ensures queue == [] && locked && !flushing && log == old(log)
      ensures Valid()
    {
      queue := [];
      locked := true;
      flushing := false;
    }
  }

  /** Items added to a locked bucket run exactly once each, in the order
      they were added, when it is unlocked. */
  method AddWhileLocked(b: Bucket, items: seq<Item>)
    requires b.locked
    modifies b
    ensures b.locked && b.queue == old(b.queue) + items && b.log == old(b.log)
  {
    for i := 0 to |items|
      invariant b.locked && b.queue == old(b.queue) + items[..i] && b.log == old(b.log)
    {
      b.Add(items[i]);
      assert items[..i + 1] == items[..i] + [items[i]];
    }
    assert items[..|items|] == items;
  }

  method QueuedThenUnlocked(items: seq<Item>) returns (b: Bucket)
    ensures fresh(b) && b.Valid() && !b.locked
    ensures b.log == Runs(items)
  {
    b := new Bucket();
    AddWhileLocked(b, items);
    b.Unlock();
  }
}

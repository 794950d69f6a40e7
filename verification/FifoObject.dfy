/**
 The queue object of fifo.c: its fields and the code run under its mutex. Each method is one critical
 section, proved to be the step of the protocol in module Fifo that bears its name.
 */
module FifoObject {

  import opened Clock
  import opened Fifo
  import opened Lists

  class FifoQueue<T> {
    var list: seq<Entry<T>>
    var count: int
    var max: nat
    var high: nat
    var low: nat
    var lowCb: bool
    var data: bool      // thresholds were set, with data for their callbacks
    var highest: int
    var highestEver: int
    var stats: Stats
    var condPull: Cond  // with thrs
    var condPush: Cond  // with thrs_push
    ghost var log: Log<T>
    ghost var inHand: map<Tid, Entry<T>>
    ghost var retrying: set<Tid>

    ghost function Contents(): Store<T>
      reads this
    {
      Store(list, count, max, high, low, lowCb, highest, highestEver, stats, log)
    }

    ghost function Snapshot(): Queue<T>
      reads this
    {
      Queue(Contents(), condPull, condPush, inHand, retrying)
    }

    /** fd_fifo_new. */
    constructor (maximum: nat)
      ensures Init(Snapshot()) && max == maximum && high == low == 0 && !lowCb && !data
    {
      list, count, max, high, low, lowCb, data := [], 0, maximum, 0, 0, false, false;
      highest, highestEver, stats := 0, 0, Stats(0, Timespec(0, 0), Timespec(0, 0), Timespec(0, 0));
      condPull, condPush := NOBODY, NOBODY;
      log, inHand, retrying := Log([], [], 0), map[], {};
    }

    method SignalPull()
      modifies this`condPull
      ensures Signalled(old(condPull), condPull)
    {
      if condPull.blocked != {} {
        var t :| t in condPull.blocked;
        condPull := condPull.Wake(t);
      }
    }

    method SignalPush()
      modifies this`condPush
      ensures Signalled(old(condPush), condPush)
    {
      if condPush.blocked != {} {
        var t :| t in condPush.blocked;
        condPush := condPush.Wake(t);
      }
    }

    /** The insertion of fd_fifo_post_internal; `callHigh` asks for the high-watermark callback. */
    method Append(e: Entry<T>, now: Timespec) returns (callHigh: bool)
      modifies `list, `count, `highest, `highestEver, `stats, `log
      ensures Contents() == Enqueue(old(Contents()), e, now)
      ensures callHigh <==> high != 0 && count % high == 0
    {
      list := list + [e];
      count := count + 1;
      if highestEver < count {
        highestEver := count;
      }
      callHigh := high != 0 && count % high == 0;
      if callHigh {
        highest := count;
      }
      stats := stats.(blockingTime := AddNs(stats.blockingTime, Elapsed(e.postedOn, now)));
      log := log.(posted := log.posted + [e]);
    }

    /** The second half of fd_fifo_post_internal, with its two signals. */
    method Insert(e: Entry<T>, now: Timespec) returns (callHigh: bool)
      modifies this
      ensures Posted(old(Snapshot()), e, now, Snapshot())
      ensures callHigh <==> high != 0 && count % high == 0
    {
      callHigh := Append(e, now);
      if condPull.thrs > 0 {
        SignalPull();
      }
      if condPush.thrs > 0 {
        SignalPush();
      }
    }

    /** mq_pop, but for its signal. */
    method TakeFirst(now: Timespec) returns (obj: T)
      requires list != []
      modifies `list, `count, `stats, `log
      ensures Contents() == Taken(old(Contents()), now)
      ensures obj == old(list)[0].obj
    {
      var fi := list[0];
      obj := fi.obj;
      list := list[1..];
      count := count - 1;
      var elapsed := Elapsed(fi.postedOn, now);
      stats := stats.(totalItems := stats.totalItems + 1,
                      lastTime := Timespec(CDiv(elapsed), CMod(elapsed)),
                      totalTime := AddNs(stats.totalTime, elapsed));
      log := log.(popped := log.popped + [fi], spent := log.spent + elapsed);
    }

    /** mq_pop and test_l_cb; `callLow` asks for the low-watermark callback. */
    method Pop(now: Timespec) returns (obj: T, callLow: bool)
      requires list != []
      modifies this
      ensures Popped(old(Snapshot()), now, Snapshot())
      ensures obj == old(list)[0].obj
      ensures callLow <==> LowFires(Taken(old(Contents()), now))
    {
      obj := TakeFirst(now);
      callLow := high != 0 && low != 0 && lowCb && count % high == low && highest > count;
      if callLow {
        highest := highest - high;
      }
      if condPush.thrs != 0 {
        SignalPush();
      }
    }

    /** fd_fifo_post_internal up to the insertion or to the wait. */
    method PostSection(t: Tid, e: Entry<T>, skipMax: bool, now: Timespec) returns (waits: bool, callHigh: bool)
      requires Idle(Snapshot(), t)
      modifies this
      ensures Next(old(Snapshot()), Post(t, e, skipMax, now), Snapshot())
      ensures waits <==> !skipMax && old(max != 0 && count >= max)
      ensures callHigh <==> !waits && high != 0 && count % high == 0
    {
      waits, callHigh := false, false;
      if !skipMax && max != 0 && count >= max {
        condPush := condPush.Block(t);
        inHand := inHand[t := e];
        waits := true;
      } else {
        callHigh := Insert(e, now);
      }
    }

    /** The poster's loop after its wait; e is the item it has in hand. */
    method PostResumeSection(t: Tid, e: Entry<T>, now: Timespec) returns (waits: bool, callHigh: bool)
      requires t in condPush.woken && t in inHand && inHand[t] == e
      modifies this
      ensures Next(old(Snapshot()), PostResume(t, now), Snapshot())
      ensures waits <==> old(max != 0 && count >= max)
      ensures callHigh <==> !waits && high != 0 && count % high == 0
    {
      condPush := condPush.Resume(t);
      waits, callHigh := false, false;
      if max != 0 && count >= max {
        condPush := condPush.Block(t);
        inHand := inHand[t := e];
        waits := true;
      } else {
        callHigh := Insert(e, now);
      }
    }

    /** fifo_tget from the entry to the return or to the wait; None means it waits. */
    method GetSection(t: Tid, now: Timespec) returns (item: Option<T>, callLow: bool)
      requires Idle(Snapshot(), t) && count == |list|
      modifies this
      ensures Next(old(Snapshot()), Get(t, now), Snapshot())
      ensures item == if old(list) == [] then None else Some(old(list)[0].obj)
      ensures callLow <==> old(list) != [] && LowFires(Taken(old(Contents()), now))
    {
      item, callLow := None, false;
      if count > 0 {
        var obj;
        obj, callLow := Pop(now);
        item := Some(obj);
      } else {
        condPull := condPull.Block(t);
      }
    }

    /** fifo_tget from a wake-up to the return or to the next wait. */
    method GetResumeSection(t: Tid, now: Timespec) returns (item: Option<T>, callLow: bool)
      requires t in condPull.woken && count == |list|
      modifies this
      ensures Next(old(Snapshot()), GetResume(t, now), Snapshot())
      ensures item == if old(list) == [] then None else Some(old(list)[0].obj)
      ensures callLow <==> old(list) != [] && LowFires(Taken(old(Contents()), now))
    {
      condPull := condPull.Resume(t);
      item, callLow := None, false;
      if count > 0 {
        var obj;
        obj, callLow := Pop(now);
        item := Some(obj);
      } else {
        condPull := condPull.Block(t);
      }
    }

    /** The first critical section of fd_fifo_tryget_int; `retry` means a poster is given a chance first. */
    method TryGetSection(t: Tid, now: Timespec) returns (item: Option<T>, callLow: bool, retry: bool)
      requires Idle(Snapshot(), t) && count == |list|
      modifies this
      ensures Next(old(Snapshot()), TryGet(t, now), Snapshot())
      ensures item == if old(list) == [] then None else Some(old(list)[0].obj)
      ensures callLow <==> old(list) != [] && LowFires(Taken(old(Contents()), now))
      ensures retry <==> old(list == [] && condPush.thrs > 0)
    {
      item, callLow, retry := None, false, false;
      if count > 0 {
        var obj;
        obj, callLow := Pop(now);
        item := Some(obj);
      } else if condPush.thrs > 0 {
        retrying := retrying + {t};
        retry := true;
      }
    }

    /** The second critical section of fd_fifo_tryget_int; None is EWOULDBLOCK. */
    method TryGetRetrySection(t: Tid, now: Timespec) returns (item: Option<T>, callLow: bool)
      requires t in retrying && count == |list|
      modifies this
      ensures Next(old(Snapshot()), TryGetRetry(t, now), Snapshot())
      ensures item == if old(list) == [] then None else Some(old(list)[0].obj)
      ensures callLow <==> old(list) != [] && LowFires(Taken(old(Contents()), now))
    {
      retrying := retrying - {t};
      item, callLow := None, false;
      if count > 0 {
        var obj;
        obj, callLow := Pop(now);
        item := Some(obj);
      }
    }

    /** fifo_cleanup. */
    method Cleanup(t: Tid)
      requires t in condPull.leaving
      modifies this
      ensures Next(old(Snapshot()), PullLeave(t), Snapshot())
    {
      condPull := condPull.Leave(t);
    }

    /** fifo_cleanup_push. */
    method CleanupPush(t: Tid)
      requires t in condPush.leaving
      modifies this
      ensures Next(old(Snapshot()), PushLeave(t), Snapshot())
    {
      condPush := condPush.Leave(t);
    }

    /** The receiving side of fd_fifo_move, but for its signal. */
    method TakeOver(from: FifoQueue<T>)
      requires from != this
      modifies `list, `count, `stats, `log
      ensures Contents() == MergeInto(old(Contents()), from.Contents())
    {
      list := list + from.list;
      count := count + from.count;
      stats := stats.(totalItems := stats.totalItems + from.stats.totalItems,
                      totalTime := Merge(stats.totalTime, from.stats.totalTime),
                      blockingTime := Merge(stats.blockingTime, from.stats.blockingTime));
      log := Log(log.popped + from.log.popped + list, log.popped + from.log.popped, log.spent + from.log.spent);
    }

    /** The emptied side of fd_fifo_move. */
    method Reset()
      modifies `list, `count, `stats, `log
      ensures Contents() == MovedAway(old(Contents()))
    {
      list, count := [], 0;
      stats := stats.(totalItems := 0, totalTime := Timespec(0, 0), blockingTime := Timespec(0, 0));
      log := Log([], [], 0);
    }

    /** The loop of fd_fifo_move: each round wakes a getter, and one that is out of its wait returns an error. */
    method SendGettersAway()
      requires condPull.Counted()
      modifies `condPull
      ensures condPull == NOBODY
    {
      while condPull.thrs != 0
        invariant condPull.Counted()
        decreases condPull.thrs
      {
        ghost var before := condPull;
        SignalPull();
        SignalServesOne(before, condPull, -1, 0);
        var t :| t in condPull.woken + condPull.leaving;
        ResumeOrLeave(condPull, t);
        condPull := if t in condPull.woken then condPull.Resume(t) else condPull.Leave(t);
      }
    }

    /**
     fd_fifo_move of the contents of `this` into `to`; false is EINVAL, for a queue with thresholds or with posters
     waiting. `updated` tells if the caller's pointer, loc_update, was changed: also in the second case.
     */
    method Move(to: FifoQueue<T>) returns (ok: bool, updated: bool)
      requires to != this && condPull.Counted()
      modifies this, to
      ensures ok <==> !old(data) && old(condPush.thrs) == 0
      ensures updated <==> !old(data)
      ensures !ok ==> Snapshot() == old(Snapshot()) && to.Snapshot() == old(to.Snapshot())
      ensures ok ==> MovedIn(old(to.Snapshot()), old(Contents()), to.Snapshot())
      ensures ok ==> Snapshot() == old(Snapshot()).(s := MovedAway(old(Contents())), pull := NOBODY)
    {
      if data {
        return false, false;
      }
      if condPush.thrs != 0 {
        return false, true;
      }
      SendGettersAway();
      if count != 0 && to.count == 0 {
        to.SignalPull();
      }
      to.TakeOver(this);
      Reset();
      return true, true;
    }
  }

  lemma ResumeOrLeave(c: Cond, t: Tid)
    requires c.Counted() && t in c.woken + c.leaving
    ensures var c' := if t in c.woken then c.Resume(t) else c.Leave(t); c'.Counted() && c'.thrs == c.thrs - 1
  {
  }
}

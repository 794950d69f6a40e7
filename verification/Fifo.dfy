/**
 The bounded blocking queue (fifo.c). Each stretch of code run under the queue's mutex is one atomic
 step; a condition variable is the set of threads blocked on it plus those that were unblocked (by a
 signal, spuriously, by a timeout or by cancellation) and still have to take the mutex back.
 */
module Fifo {

  import opened Arithmetic
  import opened Clock

  type Tid = nat

  // ---- Condition variables ----

  /** A condition variable with the queue's own count of the threads waiting on it. */
  datatype Cond = Cond(thrs: int, blocked: set<Tid>, woken: set<Tid>, leaving: set<Tid>) {
    /** Every thread inside the wait call. */
    function Waiting(): set<Tid> {
      blocked + woken + leaving
    }

    /** The count is the number of threads inside the wait call. */
    ghost predicate Counted() {
      && blocked !! woken && blocked !! leaving && woken !! leaving
      && thrs == |blocked| + |woken| + |leaving|
    }

    /** While a thread is blocked, what is available does not exceed the threads on their way, plus `slack`. */
    ghost predicate Served(available: int, slack: nat) {
      blocked != {} ==> available <= |woken| + slack
    }

    function Block(t: Tid): Cond {
      this.(thrs := thrs + 1, blocked := blocked + {t})
    }

    function Wake(t: Tid): Cond {
      this.(blocked := blocked - {t}, woken := woken + {t})
    }

    /** A wait ends otherwise than by a wake-up: timeout or cancellation. */
    function Desert(t: Tid): Cond {
      this.(blocked := blocked - {t}, leaving := leaving + {t})
    }

    /** An unblocked thread turns out to be cancelled. */
    function Reject(t: Tid): Cond {
      this.(woken := woken - {t}, leaving := leaving + {t})
    }

    /** The unblocked thread t is back from its wait, holding the mutex. */
    function Resume(t: Tid): Cond {
      this.(thrs := thrs - 1, woken := woken - {t})
    }

    /** The thread t, timed out or cancelled, holds the mutex for the last time. */
    function Leave(t: Tid): Cond {
      this.(thrs := thrs - 1, leaving := leaving - {t})
    }
  }

  /** pthread_cond_signal: some blocked thread is unblocked, if there is one. */
  ghost predicate Signalled(c: Cond, c': Cond) {
    if c.blocked == {} then c' == c else exists t :: t in c.blocked && c' == c.Wake(t)
  }

  lemma Moved(a: set<Tid>, b: set<Tid>, t: Tid)
    requires t in a && a !! b
    ensures |a - {t}| == |a| - 1 && |b + {t}| == |b| + 1
  {
  }

  lemma WakeKeeps(c: Cond, t: Tid, available: int, slack: nat)
    requires c.Counted() && t in c.blocked && c.Served(available, slack)
    ensures c.Wake(t).Counted() && c.Wake(t).Served(available + 1, slack) && c.Wake(t).Waiting() <= c.Waiting()
  {
  }

  lemma DesertKeeps(c: Cond, t: Tid, available: int)
    requires c.Counted() && t in c.blocked && c.Served(available, 0)
    ensures c.Desert(t).Counted() && c.Desert(t).Served(available, 0) && c.Desert(t).Waiting() <= c.Waiting()
  {
    Moved(c.blocked, c.leaving, t);
  }

  lemma SignalServesOne(c: Cond, c': Cond, available: int, slack: nat)
    requires c.Counted() && Signalled(c, c') && c.Served(available, slack)
    ensures c'.Counted() && c'.Served(available + 1, slack) && c'.Waiting() <= c.Waiting()
  {
    if c.blocked != {} {
      var t :| t in c.blocked && c' == c.Wake(t);
      WakeKeeps(c, t, available, slack);
    }
  }

  lemma BlockKeeps(c: Cond, t: Tid)
    requires c.Counted() && t !in c.Waiting()
    ensures c.Block(t).Counted() && c.Block(t).Waiting() <= c.Waiting() + {t}
  {
  }

  lemma ResumeKeeps(c: Cond, t: Tid, available: int)
    requires c.Counted() && t in c.woken && c.Served(available, 0)
    ensures c.Resume(t).Counted() && c.Resume(t).Served(available, 1)
    ensures c.Resume(t).Waiting() <= c.Waiting() && t !in c.Resume(t).Waiting()
  {
  }

  lemma LeaveKeeps(c: Cond, t: Tid, available: int)
    requires c.Counted() && t in c.leaving && c.Served(available, 0)
    ensures c.Leave(t).Counted() && c.Leave(t).Served(available, 0) && c.Leave(t).Waiting() <= c.Waiting()
  {
  }

  /** POSIX: the signal that reached a cancelled thread goes to another blocked one. */
  lemma CancelledKeeps(c: Cond, t: Tid, c': Cond, available: int)
    requires c.Counted() && t in c.woken && c.Served(available, 0) && Signalled(c.Reject(t), c')
    ensures c'.Counted() && c'.Served(available, 0) && c'.Waiting() <= c.Waiting()
  {
    RejectKeeps(c, t, available);
    SignalServesOne(c.Reject(t), c', available - 1, 0);
  }

  lemma RejectKeeps(c: Cond, t: Tid, available: int)
    requires c.Counted() && t in c.woken && c.Served(available, 0)
    ensures c.Reject(t).Counted() && c.Reject(t).Served(available - 1, 0) && c.Reject(t).Waiting() <= c.Waiting()
  {
    Moved(c.woken, c.leaving, t);
  }

  // ---- The queue ----

  datatype Entry<T> = Entry(obj: T, postedOn: Timespec)

  datatype Stats = Stats(totalItems: int, totalTime: Timespec, blockingTime: Timespec, lastTime: Timespec)

  /** History: the items ever inserted and taken out, in order, and the time the latter spent in the queue. */
  datatype Log<T> = Log(posted: seq<Entry<T>>, popped: seq<Entry<T>>, spent: int)

  /** What the mutex protects, apart from the waiting threads; the log is history, not data of the program. */
  datatype Store<T> = Store(
    items: seq<Entry<T>>,
    count: int,
    max: nat,
    high: nat,
    low: nat,
    hasLowCb: bool,
    highest: int,
    highestEver: int,
    stats: Stats,
    log: Log<T>
  )

  /**
   pull and push are the two condition variables; inHand is the item each thread last brought to a post;
   retrying holds the tryget calls that let go of the mutex to give a poster a chance.
   */
  datatype Queue<T> = Queue(s: Store<T>, pull: Cond, push: Cond, inHand: map<Tid, Entry<T>>, retrying: set<Tid>)

  const NOBODY := Cond(0, {}, {}, {})

  ghost predicate Init<T>(q: Queue<T>) {
    && q.s.items == [] && q.s.log == Log([], [], 0)
    && q.s.count == q.s.highest == q.s.highestEver == 0
    && q.s.stats == Stats(0, Timespec(0, 0), Timespec(0, 0), Timespec(0, 0))
    && q.pull == q.push == NOBODY && q.inHand == map[] && q.retrying == {}
  }

  // ---- What one critical section does ----

  /** The insertion of fd_fifo_post_internal. */
  function Enqueue<T>(s: Store<T>, e: Entry<T>, now: Timespec): Store<T> {
    var n := s.count + 1;
    s.(items := s.items + [e],
       count := n,
       highestEver := if s.highestEver < n then n else s.highestEver,
       highest := if s.high != 0 && n % s.high == 0 then n else s.highest,
       stats := s.stats.(blockingTime := AddNs(s.stats.blockingTime, Elapsed(e.postedOn, now))),
       log := s.log.(posted := s.log.posted + [e]))
  }

  /** test_l_cb, asked of the queue after the item was taken out. */
  predicate LowFires<T>(s: Store<T>) {
    && s.high != 0 && s.low != 0 && s.hasLowCb
    && s.count % s.high == s.low && s.highest > s.count
  }

  /** mq_pop. */
  function Taken<T>(s: Store<T>, now: Timespec): Store<T>
    requires s.items != []
  {
    var elapsed := Elapsed(s.items[0].postedOn, now);
    s.(items := s.items[1..],
       count := s.count - 1,
       stats := s.stats.(totalItems := s.stats.totalItems + 1,
                         lastTime := Timespec(CDiv(elapsed), CMod(elapsed)),
                         totalTime := AddNs(s.stats.totalTime, elapsed)),
       log := s.log.(popped := s.log.popped + [s.items[0]], spent := s.log.spent + elapsed))
  }

  /** mq_pop followed by test_l_cb. */
  function Dequeue<T>(s: Store<T>, now: Timespec): Store<T>
    requires s.items != []
  {
    var r := Taken(s, now);
    if LowFires(r) then r.(highest := r.highest - r.high) else r
  }

  ghost predicate SignalledIf(cond: bool, c: Cond, c': Cond) {
    if cond then Signalled(c, c') else c' == c
  }

  ghost predicate Posted<T>(q: Queue<T>, e: Entry<T>, now: Timespec, q': Queue<T>) {
    && SignalledIf(q.pull.thrs > 0, q.pull, q'.pull)
    && SignalledIf(q.push.thrs > 0, q.push, q'.push)
    && q' == q.(s := Enqueue(q.s, e, now), pull := q'.pull, push := q'.push)
  }

  ghost predicate Popped<T>(q: Queue<T>, now: Timespec, q': Queue<T>) {
    && q.s.items != []
    && SignalledIf(q.push.thrs != 0, q.push, q'.push)
    && q' == q.(s := Dequeue(q.s, now), push := q'.push)
  }

  predicate MustWait<T>(s: Store<T>) {
    s.max != 0 && s.count >= s.max
  }

  // ---- Steps ----

  datatype Step<T> =
    | Post(t: Tid, e: Entry<T>, skipMax: bool, now: Timespec)
    | PostResume(t: Tid, now: Timespec)
    | Get(t: Tid, now: Timespec)
    | GetResume(t: Tid, now: Timespec)
    | TryGet(t: Tid, now: Timespec)
    | TryGetSignal(t: Tid)
    | TryGetRetry(t: Tid, now: Timespec)
    | SpuriousPull(t: Tid)
    | SpuriousPush(t: Tid)
    | PullEnds(t: Tid)          // timeout or cancellation of a getter still blocked
    | PushEnds(t: Tid)          // cancellation of a poster still blocked
    | PullCancelled(t: Tid)     // cancellation of a getter just unblocked
    | PushCancelled(t: Tid)
    | PullLeave(t: Tid)         // fifo_cleanup, or the return after ETIMEDOUT
    | PushLeave(t: Tid)         // fifo_cleanup_push

  predicate Idle<T>(q: Queue<T>, t: Tid) {
    t !in q.pull.Waiting() && t !in q.push.Waiting() && t !in q.retrying
  }

  ghost predicate PostOrWait<T>(q: Queue<T>, t: Tid, e: Entry<T>, skipMax: bool, now: Timespec, q': Queue<T>) {
    if !skipMax && MustWait(q.s) then q' == q.(push := q.push.Block(t), inHand := q.inHand[t := e])
    else Posted(q, e, now, q')
  }

  ghost predicate PopOrWait<T>(q: Queue<T>, t: Tid, now: Timespec, q': Queue<T>) {
    if q.s.count > 0 then Popped(q, now, q') else q' == q.(pull := q.pull.Block(t))
  }

  ghost predicate Next<T>(q: Queue<T>, step: Step<T>, q': Queue<T>) {
    match step
    case Post(t, e, skipMax, now) => Idle(q, t) && PostOrWait(q, t, e, skipMax, now, q')
    case PostResume(t, now) =>
      && t in q.push.woken && t in q.inHand
      && PostOrWait(q.(push := q.push.Resume(t)), t, q.inHand[t], false, now, q')
    case Get(t, now) => Idle(q, t) && PopOrWait(q, t, now, q')
    case GetResume(t, now) => t in q.pull.woken && PopOrWait(q.(pull := q.pull.Resume(t)), t, now, q')
    case TryGet(t, now) =>
      && Idle(q, t)
      && if q.s.count > 0 then Popped(q, now, q')
         else if q.push.thrs > 0 then q' == q.(retrying := q.retrying + {t})
         else q' == q
    case TryGetSignal(t) =>
      t in q.retrying && Signalled(q.push, q'.push) && q' == q.(push := q'.push)
    case TryGetRetry(t, now) =>
      && t in q.retrying
      && var r := q.(retrying := q.retrying - {t});
         if r.s.count > 0 then Popped(r, now, q') else q' == r
    case SpuriousPull(t) => t in q.pull.blocked && q' == q.(pull := q.pull.Wake(t))
    case SpuriousPush(t) => t in q.push.blocked && q' == q.(push := q.push.Wake(t))
    case PullEnds(t) => t in q.pull.blocked && q' == q.(pull := q.pull.Desert(t))
    case PushEnds(t) => t in q.push.blocked && q' == q.(push := q.push.Desert(t))
    case PullCancelled(t) =>
      t in q.pull.woken && Signalled(q.pull.Reject(t), q'.pull) && q' == q.(pull := q'.pull)
    case PushCancelled(t) =>
      t in q.push.woken && Signalled(q.push.Reject(t), q'.push) && q' == q.(push := q'.push)
    case PullLeave(t) => t in q.pull.leaving && q' == q.(pull := q.pull.Leave(t))
    case PushLeave(t) => t in q.push.leaving && q' == q.(push := q.push.Leave(t))
  }

  /** How a wait can end: by a wake-up nobody asked for, or by a timeout or a cancellation that leaves the queue. */
  lemma WaitsEnd<T>(q: Queue<T>, step: Step<T>, q': Queue<T>)
    requires Counters(q) && Next(q, step, q')
    ensures step.SpuriousPull? ==> step.t in q'.pull.woken && step.t !in q'.pull.blocked
    ensures step.SpuriousPush? ==> step.t in q'.push.woken && step.t !in q'.push.blocked
    ensures step.PullEnds? || step.PullCancelled? ==> step.t in q'.pull.leaving && step.t !in q'.pull.woken
    ensures step.PushEnds? || step.PushCancelled? ==> step.t in q'.push.leaving && step.t !in q'.push.woken
    ensures step.PullLeave? ==> step.t !in q'.pull.Waiting() && q'.pull.thrs == q.pull.thrs - 1
    ensures step.PushLeave? ==> step.t !in q'.push.Waiting() && q'.push.thrs == q.push.thrs - 1
  {
  }

  // ---- Invariants of every interleaving ----

  /** `count` is the length of the list, and what was posted is what was popped followed by what is queued. */
  ghost predicate History<T>(s: Store<T>) {
    && s.count == |s.items|
    && s.log.posted == s.log.popped + s.items
    && s.stats.totalItems == |s.log.popped|
    && Ns(s.stats.totalTime) == s.log.spent
  }

  /** The waiter counters count exactly the threads inside a wait call, and every waiting poster has its item. */
  ghost predicate Counters<T>(q: Queue<T>) {
    && q.pull.Counted() && q.push.Counted()
    && q.push.Waiting() <= q.inHand.Keys
    && (q.s.max == 0 ==> q.push.Waiting() == {})
  }

  /** While a thread sleeps, enough threads are on their way to serve what is available. */
  ghost predicate NoLostWakeup<T>(q: Queue<T>) {
    q.pull.Served(q.s.count, 0) && q.push.Served(q.s.max - q.s.count, 0)
  }

  ghost predicate Inv<T>(q: Queue<T>) {
    History(q.s) && Counters(q) && NoLostWakeup(q)
  }

  lemma EnqueueKeepsHistory<T>(s: Store<T>, e: Entry<T>, now: Timespec)
    requires History(s)
    ensures History(Enqueue(s, e, now))
  {
  }

  lemma DequeueKeepsHistory<T>(s: Store<T>, now: Timespec)
    requires History(s) && s.items != []
    ensures History(Dequeue(s, now))
  {
  }

  /** A post pays for a poster that has just come back; a poster that must wait finds no room. */
  lemma PostOrWaitKeeps<T>(q: Queue<T>, t: Tid, e: Entry<T>, skipMax: bool, now: Timespec, q': Queue<T>)
    requires History(q.s) && Counters(q) && t !in q.push.Waiting()
    requires q.pull.Served(q.s.count, 0) && q.push.Served(q.s.max - q.s.count, 1)
    requires PostOrWait(q, t, e, skipMax, now, q')
    ensures Inv(q')
  {
    if !skipMax && MustWait(q.s) {
      BlockKeeps(q.push, t);
    } else {
      EnqueueKeepsHistory(q.s, e, now);
      if q.pull.thrs > 0 { SignalServesOne(q.pull, q'.pull, q.s.count, 0); }
      if q.push.thrs > 0 { SignalServesOne(q.push, q'.push, q.s.max - q.s.count, 1); }
    }
  }

  /** A pop pays for a getter that has just come back, and signals for the room it makes. */
  lemma PoppedKeeps<T>(q: Queue<T>, now: Timespec, q': Queue<T>)
    requires History(q.s) && Counters(q)
    requires q.pull.Served(q.s.count, 1) && q.push.Served(q.s.max - q.s.count, 0)
    requires Popped(q, now, q')
    ensures Inv(q')
  {
    DequeueKeepsHistory(q.s, now);
    if q.push.thrs != 0 { SignalServesOne(q.push, q'.push, q.s.max - q.s.count, 0); }
  }

  lemma PopOrWaitKeeps<T>(q: Queue<T>, t: Tid, now: Timespec, q': Queue<T>)
    requires History(q.s) && Counters(q) && t !in q.pull.Waiting()
    requires q.pull.Served(q.s.count, 1) && q.push.Served(q.s.max - q.s.count, 0)
    requires PopOrWait(q, t, now, q')
    ensures Inv(q')
  {
    if q.s.count > 0 {
      PoppedKeeps(q, now, q');
    } else {
      BlockKeeps(q.pull, t);
    }
  }

  /** The steps in which only a condition variable changes. */
  lemma WaitStepKeepsInv<T>(q: Queue<T>, step: Step<T>, q': Queue<T>)
    requires Inv(q) && Next(q, step, q')
    requires !step.Post? && !step.PostResume? && !step.Get? && !step.GetResume? && !step.TryGet? && !step.TryGetRetry?
    ensures Inv(q')
  {
    var items, room := q.s.count, q.s.max - q.s.count;
    match step
    case TryGetSignal(_) => SignalServesOne(q.push, q'.push, room, 0);
    case SpuriousPull(t) => WakeKeeps(q.pull, t, items, 0);
    case SpuriousPush(t) => WakeKeeps(q.push, t, room, 0);
    case PullEnds(t) => DesertKeeps(q.pull, t, items);
    case PushEnds(t) => DesertKeeps(q.push, t, room);
    case PullCancelled(t) => CancelledKeeps(q.pull, t, q'.pull, items);
    case PushCancelled(t) => CancelledKeeps(q.push, t, q'.push, room);
    case PullLeave(t) => LeaveKeeps(q.pull, t, items);
    case PushLeave(t) => LeaveKeeps(q.push, t, room);
  }

  /** Every step of every thread keeps the invariant. */
  lemma StepKeepsInv<T>(q: Queue<T>, step: Step<T>, q': Queue<T>)
    requires Inv(q) && Next(q, step, q')
    ensures Inv(q')
  {
    match step
    case Post(t, e, skipMax, now) => PostOrWaitKeeps(q, t, e, skipMax, now, q');
    case PostResume(t, now) =>
      ResumeKeeps(q.push, t, q.s.max - q.s.count);
      PostOrWaitKeeps(q.(push := q.push.Resume(t)), t, q.inHand[t], false, now, q');
    case Get(t, now) => PopOrWaitKeeps(q, t, now, q');
    case GetResume(t, now) =>
      ResumeKeeps(q.pull, t, q.s.count);
      PopOrWaitKeeps(q.(pull := q.pull.Resume(t)), t, now, q');
    case TryGet(t, now) =>
      if q.s.count > 0 { PoppedKeeps(q, now, q'); }
    case TryGetRetry(t, now) =>
      if q.s.count > 0 { PoppedKeeps(q.(retrying := q.retrying - {t}), now, q'); }
    case _ => WaitStepKeepsInv(q, step, q');
  }

  // ---- Whole runs ----

  ghost predicate Run<T>(qs: seq<Queue<T>>, steps: seq<Step<T>>) {
    && |qs| == |steps| + 1 && Init(qs[0])
    && forall i :: 0 <= i < |steps| ==> Next(qs[i], steps[i], qs[i + 1])
  }

  lemma {:induction false} RunKeepsInv<T>(qs: seq<Queue<T>>, steps: seq<Step<T>>, k: nat)
    requires Run(qs, steps) && k < |qs|
    ensures Inv(qs[k])
  {
    if k > 0 {
      RunKeepsInv(qs, steps, k - 1);
      StepKeepsInv(qs[k - 1], steps[k - 1], qs[k]);
    }
  }

  /**
   No lost wake-up: in no run of any threads does a getter sleep while an item is queued that no unblocked
   getter is on the way to take, nor a poster while there is room that no unblocked poster is on the way to fill.
   */
  lemma NobodySleepsInVain<T>(qs: seq<Queue<T>>, steps: seq<Step<T>>, k: nat)
    requires Run(qs, steps) && k < |qs|
    ensures var q := qs[k];
            && (q.pull.blocked != {} ==> |q.s.items| <= |q.pull.woken|)
            && (q.push.blocked != {} ==> q.s.max > 0 && q.s.max - |q.s.items| <= |q.push.woken|)
  {
    RunKeepsInv(qs, steps, k);
  }

  /**
   Queue history: in every run, what was posted is what was popped followed by what is queued, `count` is the
   list's length, the two waiter counters are the numbers of threads inside a wait call (cancelled ones
   included until their cleanup ran), and the accumulated time is the sum over the popped items.
   */
  lemma QueueHistory<T>(qs: seq<Queue<T>>, steps: seq<Step<T>>, k: nat)
    requires Run(qs, steps) && k < |qs|
    ensures var q := qs[k];
            && q.s.log.posted == q.s.log.popped + q.s.items && q.s.count == |q.s.items|
            && q.pull.thrs == |q.pull.Waiting()| && q.push.thrs == |q.push.Waiting()|
            && q.s.stats.totalItems == |q.s.log.popped| && Ns(q.s.stats.totalTime) == q.s.log.spent
  {
    RunKeepsInv(qs, steps, k);
    WaitingSize(qs[k].pull);
    WaitingSize(qs[k].push);
  }

  lemma WaitingSize(c: Cond)
    requires c.Counted()
    ensures |c.Waiting()| == c.thrs
  {
  }

  /** A step changes the stored items by one insertion at the end, by one removal at the front, or not at all. */
  lemma StoreStep<T>(q: Queue<T>, step: Step<T>, q': Queue<T>)
    requires Next(q, step, q')
    ensures || q'.s == q.s
            || (exists e, now :: q'.s == Enqueue(q.s, e, now))
            || (q.s.items != [] && exists now :: q'.s == Dequeue(q.s, now))
  {
  }

  /** Only fd_fifo_post_noblock may take a bounded queue past its maximum. */
  lemma BlockingPostKeepsMax<T>(q: Queue<T>, step: Step<T>, q': Queue<T>)
    requires Next(q, step, q') && 0 < q.s.max && q'.s.count > q.s.max && q'.s.count > q.s.count
    ensures step.Post? && step.skipMax
  {
  }

  // ---- Watermarks ----

  /** The state of the high/low watermark logic: both thresholds set, `highest` a multiple of high close to count. */
  ghost predicate Hysteresis<T>(s: Store<T>) {
    && 0 < s.low < s.high && s.hasLowCb
    && s.highest % s.high == 0
    && s.count - s.high < s.highest < s.count + (s.high - s.low)
  }

  lemma EnqueueKeepsHysteresis<T>(s: Store<T>, e: Entry<T>, now: Timespec)
    requires Hysteresis(s)
    ensures Hysteresis(Enqueue(s, e, now))
  {
    ModShift(s.highest, s.high);
  }

  lemma LowFiresArithmetic(c: nat, highest: int, high: nat, low: nat)
    requires 0 < low < high && highest % high == 0
    requires c + 1 - high < highest < c + 1 + (high - low)
    ensures c % high == low && highest > c <==> highest >= c + (high - low)
    ensures (highest - high) % high == 0
  {
    ModShift(highest, high);
    if highest == c + (high - low) {
      ModAdd(highest - high, low, high);
    } else if c % high == low && highest > c {
      ModAdd(c, high - low, high);
      ModGap(highest, c + (high - low), high);
    }
  }

  /**
   The low-watermark test, made after every pop, fires exactly when the pop would otherwise break the upper
   bound, and `highest` then goes down by `high`, which restores it.
   */
  lemma LowFiresExactly<T>(s: Store<T>, now: Timespec)
    requires Hysteresis(s) && 0 < s.count && s.items != []
    ensures LowFires(Taken(s, now)) <==> s.highest >= (s.count - 1) + (s.high - s.low)
    ensures Hysteresis(Dequeue(s, now))
  {
    LowFiresArithmetic(s.count - 1, s.highest, s.high, s.low);
  }

  lemma StepKeepsHysteresis<T>(q: Queue<T>, step: Step<T>, q': Queue<T>)
    requires Inv(q) && Hysteresis(q.s) && Next(q, step, q')
    ensures Hysteresis(q'.s)
  {
    StoreStep(q, step, q');
    if e, now :| q'.s == Enqueue(q.s, e, now) {
      EnqueueKeepsHysteresis(q.s, e, now);
    } else if q.s.items != [] {
      if now :| q'.s == Dequeue(q.s, now) {
        LowFiresExactly(q.s, now);
      }
    }
  }

  /** Watermark hysteresis in every run of a queue whose thresholds were set while it was empty. */
  lemma {:induction false} RunKeepsHysteresis<T>(qs: seq<Queue<T>>, steps: seq<Step<T>>, k: nat)
    requires Run(qs, steps) && k < |qs|
    requires 0 < qs[0].s.low < qs[0].s.high && qs[0].s.hasLowCb
    ensures Hysteresis(qs[k].s)
  {
    if k > 0 {
      RunKeepsHysteresis(qs, steps, k - 1);
      RunKeepsInv(qs, steps, k - 1);
      StepKeepsHysteresis(qs[k - 1], steps[k - 1], qs[k]);
    }
  }

  // ---- Moving the contents of a queue to another ----

  /** fd_fifo_move, seen from the receiving queue; its history restarts from what both queues have popped. */
  function MergeInto<T>(to: Store<T>, from: Store<T>): Store<T> {
    to.(items := to.items + from.items,
        count := to.count + from.count,
        stats := to.stats.(totalItems := to.stats.totalItems + from.stats.totalItems,
                           totalTime := Merge(to.stats.totalTime, from.stats.totalTime),
                           blockingTime := Merge(to.stats.blockingTime, from.stats.blockingTime)),
        log := Log(to.log.popped + from.log.popped + (to.items + from.items),
                   to.log.popped + from.log.popped,
                   to.log.spent + from.log.spent))
  }

  /** fd_fifo_move, seen from the emptied queue. */
  function MovedAway<T>(from: Store<T>): Store<T> {
    from.(items := [], count := 0,
          stats := from.stats.(totalItems := 0, totalTime := Timespec(0, 0), blockingTime := Timespec(0, 0)),
          log := Log([], [], 0))
  }

  /** Items, counters and every nanosecond of the accumulators are conserved; the old items follow the new ones. */
  lemma MoveConserves<T>(to: Store<T>, from: Store<T>)
    requires History(to) && History(from)
    ensures var to', from' := MergeInto(to, from), MovedAway(from);
            && History(to') && History(from') && to'.items == to.items + from.items && from'.items == []
            && to'.count == to.count + from.count && from'.count == 0
            && to'.stats.totalItems == to.stats.totalItems + from.stats.totalItems
            && Ns(to'.stats.totalTime) == Ns(to.stats.totalTime) + Ns(from.stats.totalTime)
            && Ns(to'.stats.blockingTime) == Ns(to.stats.blockingTime) + Ns(from.stats.blockingTime)
            && from'.stats.totalItems == Ns(from'.stats.totalTime) == Ns(from'.stats.blockingTime) == 0
  {
  }

  /** The receiving queue in fd_fifo_move: one signal at most, and only if it was empty. */
  ghost predicate MovedIn<T>(q: Queue<T>, from: Store<T>, q': Queue<T>) {
    && SignalledIf(from.count != 0 && q.s.count == 0, q.pull, q'.pull)
    && q' == q.(s := MergeInto(q.s, from), pull := q'.pull)
  }

  /**
   A move may lose wake-ups: the receiving queue is left in good order if and only if nothing is moved, or the
   one signal is enough for the getters asleep.
   */
  lemma MoveWakesEnoughExactlyWhen<T>(q: Queue<T>, from: Store<T>, q': Queue<T>)
    requires Inv(q) && History(from) && MovedIn(q, from, q')
    ensures NoLostWakeup(q') <==>
              || from.count == 0
              || (q.s.count == 0 && (|q.pull.blocked| <= 1 || from.count <= |q.pull.woken| + 1))
              || (q.s.count != 0 && (q.pull.blocked == {} || q.s.count + from.count <= |q.pull.woken|))
  {
    if from.count != 0 && q.s.count == 0 && q.pull.blocked != {} {
      OneSignal(q.pull, q'.pull, from.count);
    }
  }

  /**
   It does happen: two items are posted to one queue while two getters wait on another; after the move, one getter
   is woken and takes an item, and the second sleeps on, with an item queued and nobody on the way to take it.
   */
  lemma MoveCanLoseAWakeup<T>(e: Entry<T>, f: Entry<T>, now: Timespec, p0: Queue<T>, q0: Queue<T>)
      returns (ps: seq<Queue<T>>, qs: seq<Queue<T>>, q3: Queue<T>, q4: Queue<T>)
    requires Init(p0) && p0.s.max == 0 && Init(q0)
    ensures Run(ps, [Post(3, e, false, now), Post(3, f, false, now)]) && ps[0] == p0
    ensures Run(qs, [Get(1, now), Get(2, now)]) && qs[0] == q0
    ensures MovedIn(qs[2], ps[2].s, q3) && Next(q3, GetResume(1, now), q4)
    ensures q4.pull.blocked == {2} && q4.pull.woken == {} && q4.s.items == [f]
  {
    var p1 := p0.(s := Enqueue(p0.s, e, now));
    var p2 := p1.(s := Enqueue(p1.s, f, now));
    ps := [p0, p1, p2];
    var q1 := q0.(pull := Cond(1, {1}, {}, {}));
    var q2 := q1.(pull := Cond(2, {1, 2}, {}, {}));
    qs := [q0, q1, q2];
    q3 := q2.(s := MergeInto(q2.s, p2.s), pull := Cond(2, {2}, {1}, {}));
    assert q2.pull.Wake(1) == q3.pull;
    var q := q3.(pull := q3.pull.Resume(1));
    q4 := q.(s := Dequeue(q.s, now));
  }

  lemma OneSignal(c: Cond, c': Cond, available: int)
    requires c.Counted() && c.blocked != {} && Signalled(c, c')
    ensures c'.Served(available, 0) <==> |c.blocked| <= 1 || available <= |c.woken| + 1
  {
    var t :| t in c.blocked && c' == c.Wake(t);
    Moved(c.blocked, c.woken, t);
    assert |c'.blocked| == 0 <==> c'.blocked == {};
  }

  // ---- Waiting without taking ----

  /** fd_fifo_select with a timeout on an empty queue. */
  ghost predicate SelectBlocks<T>(q: Queue<T>, t: Tid, q': Queue<T>) {
    Idle(q, t) && q.s.count == 0 && q' == q.(pull := q.pull.Block(t))
  }

  /** The unblocked fd_fifo_select finds an item, reports it and leaves it where it is. */
  ghost predicate SelectReturns<T>(q: Queue<T>, t: Tid, q': Queue<T>) {
    t in q.pull.woken && q.s.count > 0 && q' == q.(pull := q.pull.Resume(t))
  }

  /** Since select shares the getters' condition variable, its return can consume the signal a getter needed. */
  lemma SelectCanLoseAWakeup<T>(e: Entry<T>, now: Timespec, q0: Queue<T>)
      returns (q1: Queue<T>, q2: Queue<T>, q3: Queue<T>, q4: Queue<T>)
    requires Init(q0) && q0.s.max == 0
    ensures SelectBlocks(q0, 1, q1) && Next(q1, Get(2, now), q2)
    ensures Next(q2, Post(3, e, false, now), q3) && SelectReturns(q3, 1, q4)
    ensures q4.pull.blocked == {2} && q4.pull.woken == {} && q4.s.items == [e]
  {
    q1 := q0.(pull := Cond(1, {1}, {}, {}));
    q2 := q1.(pull := Cond(2, {1, 2}, {}, {}));
    q3 := q2.(s := Enqueue(q2.s, e, now), pull := Cond(2, {2}, {1}, {}));
    assert q2.pull.Wake(1) == q3.pull;
    q4 := q3.(pull := Cond(1, {2}, {}, {}));
  }

  /** A select that returns leaves the queue in good order if and only if no getter sleeps or one more is on the way. */
  lemma SelectIsHarmlessExactlyWhen<T>(q: Queue<T>, t: Tid, q': Queue<T>)
    requires Inv(q) && SelectReturns(q, t, q')
    ensures q.s.items != [] && q'.s == q.s && t !in q'.pull.Waiting()
    ensures NoLostWakeup(q') <==> q.pull.blocked == {} || q.s.count < |q.pull.woken|
  {
  }
}

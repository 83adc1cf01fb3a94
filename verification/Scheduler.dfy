/** The event schedulers of server and client: a priority queue ordered by time, then by sequence number. */
module Scheduler {

  datatype Scheduled<T> = Scheduled(time: int, sequence: nat, task: T)

  /** `a` leaves the priority queue before `b`. */
  predicate Before<T>(a: Scheduled<T>, b: Scheduled<T>) {
    a.time < b.time || (a.time == b.time && a.sequence < b.sequence)
  }

  /** A priority queue is kept as the sequence in which its elements would be popped. */
  function Insert<T>(queue: seq<Scheduled<T>>, e: Scheduled<T>): seq<Scheduled<T>> {
    if queue == [] || Before(e, queue[0]) then [e] + queue
    else [queue[0]] + Insert(queue[1..], e)
  }

  ghost predicate InOrder<T>(queue: seq<Scheduled<T>>) {
    forall i, j | 0 <= i < j < |queue| :: Before(queue[i], queue[j])
  }

  /** Every element has been numbered by a counter that now stands at `next`. */
  ghost predicate Numbered<T>(queue: seq<Scheduled<T>>, next: nat) {
    forall i | 0 <= i < |queue| :: queue[i].sequence < next
  }

  /** A push at the current time goes to the end of the queue. */
  lemma {:induction false} InsertLast<T>(queue: seq<Scheduled<T>>, e: Scheduled<T>)
    requires forall i | 0 <= i < |queue| :: Before(queue[i], e)
    ensures Insert(queue, e) == queue + [e]
    decreases |queue|
  {
    if queue != [] {
      assert Before(queue[0], e);
      InsertLast(queue[1..], e);
      assert queue + [e] == [queue[0]] + (queue[1..] + [e]);
    }
  }

  /** An insertion splits the queue where the new element belongs. */
  lemma {:induction false} InsertSplits<T>(queue: seq<Scheduled<T>>, e: Scheduled<T>) returns (p: nat)
    ensures p <= |queue| && Insert(queue, e) == queue[..p] + [e] + queue[p..]
    ensures forall i | 0 <= i < p :: !Before(e, queue[i])
    ensures p < |queue| ==> Before(e, queue[p])
    decreases |queue|
  {
    if queue == [] || Before(e, queue[0]) {
      return 0;
    }
    var k := InsertSplits(queue[1..], e);
    p := k + 1;
    assert queue[..p] == [queue[0]] + queue[1..][..k];
    assert queue[p..] == queue[1..][k..];
  }

  /** An insertion adds exactly the new element. */
  lemma InsertConserves<T>(queue: seq<Scheduled<T>>, e: Scheduled<T>)
    ensures multiset(Insert(queue, e)) == multiset(queue) + multiset{e}
  {
    var p := InsertSplits(queue, e);
    assert queue == queue[..p] + queue[p..];
    assert multiset(queue) == multiset(queue[..p]) + multiset(queue[p..]);
    assert multiset(queue[..p] + [e] + queue[p..]) == multiset(queue[..p]) + multiset([e]) + multiset(queue[p..]);
  }

  /** An insertion under a new number keeps the queue in order. */
  lemma InsertInOrder<T>(queue: seq<Scheduled<T>>, e: Scheduled<T>)
    requires InOrder(queue) && Numbered(queue, e.sequence)
    ensures InOrder(Insert(queue, e)) && Numbered(Insert(queue, e), e.sequence + 1)
  {
    var p := InsertSplits(queue, e);
    var r := queue[..p] + [e] + queue[p..];
    forall i, j | 0 <= i < j < |r| ensures Before(r[i], r[j]) {
      if i < p && p == j {
        assert !Before(e, queue[i]);
      } else if i == p {
        assert Before(e, queue[p]) && (j == p + 1 || Before(queue[p], queue[j - 1]));
      }
    }
  }

  /** How many elements are due at `now`. */
  function DueCount<T>(queue: seq<Scheduled<T>>, now: int): (k: nat)
    ensures k <= |queue|
    ensures forall i | 0 <= i < k :: queue[i].time <= now
    ensures k < |queue| ==> now < queue[k].time
  {
    if queue == [] || now < queue[0].time then 0 else 1 + DueCount(queue[1..], now)
  }

  /** In an ordered queue the due elements are exactly those popped. */
  lemma DueIsPrefix<T>(queue: seq<Scheduled<T>>, now: int)
    requires InOrder(queue)
    ensures forall i | 0 <= i < |queue| :: queue[i].time <= now <==> i < DueCount(queue, now)
  {
    var k := DueCount(queue, now);
    forall i | k <= i < |queue| ensures now < queue[i].time {
      if k < i { assert Before(queue[k], queue[i]); }
    }
  }

  /** MainServer/JobQueue: one reading of the clock decides what is due. */
  class ServerEventScheduler<T> {
    var taskQueue: seq<Scheduled<T>>
    var currentTick: int
    var nextSequence: nat

    constructor (now: int)
      ensures taskQueue == [] && currentTick == now && nextSequence == 0
    {
      taskQueue, currentTick, nextSequence := [], now, 0;
    }

    /** The clock reads `now`; `after` is the delay in milliseconds. */
    method PushTask(task: T, after: int, now: int)
      modifies this
      ensures taskQueue == Insert(old(taskQueue), Scheduled(now + after, old(nextSequence), task))
      ensures nextSequence == old(nextSequence) + 1 && currentTick == now
    {
      currentTick := now;
      var e := Scheduled(currentTick + after, nextSequence, task);
      nextSequence := nextSequence + 1;
      taskQueue := Insert(taskQueue, e);
    }

    /** The start of DoTasks: the only reading of the clock. */
    method BeginTasks(now: int)
      modifies this`currentTick
      ensures currentTick == now && taskQueue == old(taskQueue) && nextSequence == old(nextSequence)
    {
      currentTick := now;
    }

    /** One turn of the loop in DoTasks: what is at the top, if it is due at the tick of this DoTasks. */
    method PopDue() returns (task: seq<Scheduled<T>>)
      modifies this`taskQueue
      ensures task == if old(taskQueue) == [] || currentTick < old(taskQueue)[0].time then [] else [old(taskQueue)[0]]
      ensures task + taskQueue == old(taskQueue) && nextSequence == old(nextSequence) && currentTick == old(currentTick)
    {
      if taskQueue == [] { return []; }
      var top := taskQueue[0];
      if currentTick < top.time { return []; }
      taskQueue := taskQueue[1..];
      return [top];
    }

    method Clear() returns (dropped: seq<Scheduled<T>>)
      modifies this`taskQueue
      ensures taskQueue == [] && dropped == old(taskQueue) && nextSequence == old(nextSequence)
    {
      dropped := [];
      while taskQueue != []
        invariant dropped + taskQueue == old(taskQueue)
        decreases |taskQueue|
      {
        dropped := dropped + [taskQueue[0]];
        taskQueue := taskQueue[1..];
      }
    }
  }

  /**
   * How many tasks DoTasks pops when it reads the clock anew before every task: reading `i` decides about task `i`.
   */
  function PopCount<T>(queue: seq<Scheduled<T>>, clock: seq<int>): (k: nat)
    requires |clock| > |queue|
    ensures k <= |queue|
    ensures forall i | 0 <= i < k :: queue[i].time <= clock[i]
    ensures k < |queue| ==> clock[k] < queue[k].time
    decreases |queue|
  {
    if queue == [] || clock[0] < queue[0].time then 0 else 1 + PopCount(queue[1..], clock[1..])
  }

  /** GameClient/Network/ClientEventScheduler: the clock is read before every task. */
  class ClientEventScheduler<T> {
    var taskQueue: seq<Scheduled<T>>
    var nextSequence: nat

    constructor ()
      ensures taskQueue == [] && nextSequence == 0
    {
      taskQueue, nextSequence := [], 0;
    }

    method PushTask(task: T, afterMilliseconds: int, now: int)
      modifies this
      ensures taskQueue == Insert(old(taskQueue), Scheduled(now + Delay(afterMilliseconds), old(nextSequence), task))
      ensures nextSequence == old(nextSequence) + 1
    {
      var delay := if afterMilliseconds > 0 then afterMilliseconds else 0;
      taskQueue := Insert(taskQueue, Scheduled(now + delay, nextSequence, task));
      nextSequence := nextSequence + 1;
    }

    /** `clock` lists what successive readings of the clock would show. */
    method DoTasks(clock: seq<int>) returns (ran: seq<Scheduled<T>>)
      requires |clock| > |taskQueue|
      modifies this`taskQueue
      ensures var k := PopCount(old(taskQueue), clock);
              ran == old(taskQueue)[..k] && taskQueue == old(taskQueue)[k..]
    {
      ghost var start, k := taskQueue, PopCount(taskQueue, clock);
      var n := 0;
      ran := [];
      while taskQueue != []
        invariant n <= k && taskQueue == start[n..] && ran == start[..n]
        decreases |taskQueue|
      {
        assert taskQueue[0] == start[n];
        if clock[n] < taskQueue[0].time { break; }
        ran := ran + [taskQueue[0]];
        taskQueue := taskQueue[1..];
        n := n + 1;
      }
    }

    method Clear()
      modifies this
      ensures taskQueue == [] && nextSequence == 0
    {
      while taskQueue != []
        decreases |taskQueue|
      {
        taskQueue := taskQueue[1..];
      }
      nextSequence := 0;
    }
  }

  function Delay(afterMilliseconds: int): int {
    if afterMilliseconds > 0 then afterMilliseconds else 0
  }

  /**
   * With a clock that never goes back, reading it before every task runs what one reading would run, taken when
   * the loop stops: everything due by then, and nothing else.
   */
  lemma RereadingClock<T>(queue: seq<Scheduled<T>>, clock: seq<int>)
    requires InOrder(queue) && |clock| > |queue|
    requires forall i, j | 0 <= i < j < |clock| :: clock[i] <= clock[j]
    ensures PopCount(queue, clock) == DueCount(queue, clock[PopCount(queue, clock)])
  {
    var k := PopCount(queue, clock);
    DueIsPrefix(queue, clock[k]);
    forall i | 0 <= i < k ensures queue[i].time <= clock[k] {}
  }

  // ---- whole histories ----

  /** `Clear(true)` also restarts the numbering, as the client does. */
  datatype Op<T> = Push(task: T, after: int, now: int) | Run(now: int) | Clear(restart: bool)

  /** A scheduler with its history: what was pushed, what left, and what of that was run. */
  datatype Agenda<T> = Agenda(
    queue: seq<Scheduled<T>>, next: nat, pushed: seq<Scheduled<T>>, gone: seq<Scheduled<T>>, ran: seq<Scheduled<T>>)

  function Do<T>(a: Agenda<T>, op: Op<T>): Agenda<T> {
    match op
    case Push(task, after, now) =>
      var e := Scheduled(now + after, a.next, task);
      a.(queue := Insert(a.queue, e), next := a.next + 1, pushed := a.pushed + [e])
    case Run(now) =>
      var k := DueCount(a.queue, now);
      a.(queue := a.queue[k..], gone := a.gone + a.queue[..k], ran := a.ran + a.queue[..k])
    case Clear(restart) =>
      a.(queue := [], gone := a.gone + a.queue, next := if restart then 0 else a.next)
  }

  function DoAll<T>(a: Agenda<T>, ops: seq<Op<T>>): Agenda<T>
    decreases |ops|
  {
    if ops == [] then a else DoAll(Do(a, ops[0]), ops[1..])
  }

  ghost predicate Sound<T>(a: Agenda<T>) {
    && InOrder(a.queue) && Numbered(a.queue, a.next)
    && multiset(a.pushed) == multiset(a.gone) + multiset(a.queue)
    && multiset(a.ran) <= multiset(a.gone)
  }

  lemma CutConserves<T>(queue: seq<Scheduled<T>>, k: nat)
    requires k <= |queue|
    ensures multiset(queue) == multiset(queue[..k]) + multiset(queue[k..])
  {
    assert queue == queue[..k] + queue[k..];
  }

  lemma PushKeepsSound<T>(a: Agenda<T>, task: T, after: int, now: int)
    requires Sound(a)
    ensures Sound(Do(a, Push(task, after, now)))
  {
    var e := Scheduled(now + after, a.next, task);
    InsertInOrder(a.queue, e);
    InsertConserves(a.queue, e);
    assert multiset(a.pushed + [e]) == multiset(a.pushed) + multiset([e]);
  }

  lemma RunKeepsSound<T>(a: Agenda<T>, now: int)
    requires Sound(a)
    ensures Sound(Do(a, Run(now)))
  {
    var k := DueCount(a.queue, now);
    CutConserves(a.queue, k);
    assert multiset(a.gone + a.queue[..k]) == multiset(a.gone) + multiset(a.queue[..k]);
    assert multiset(a.ran + a.queue[..k]) == multiset(a.ran) + multiset(a.queue[..k]);
  }

  lemma DoKeepsSound<T>(a: Agenda<T>, op: Op<T>)
    requires Sound(a)
    ensures Sound(Do(a, op))
  {
    match op {
      case Push(task, after, now) => PushKeepsSound(a, task, after, now);
      case Run(now) => RunKeepsSound(a, now);
      case Clear(restart) =>
    }
  }

  /** Conservation over every history: each pushed task is still queued, was run, or was cleared. */
  lemma {:induction false} HistoryConserves<T>(a: Agenda<T>, ops: seq<Op<T>>)
    requires Sound(a)
    ensures Sound(DoAll(a, ops))
    decreases |ops|
  {
    if ops != [] {
      DoKeepsSound(a, ops[0]);
      HistoryConserves(Do(a, ops[0]), ops[1..]);
    }
  }

  /** DoTasks runs exactly the tasks due at its tick, in (time, sequence) order. */
  lemma RunsExactlyWhatIsDue<T>(a: Agenda<T>, now: int)
    requires Sound(a)
    ensures var k := |Do(a, Run(now)).ran| - |a.ran|;
            && 0 <= k <= |a.queue| && Do(a, Run(now)).ran == a.ran + a.queue[..k]
            && InOrder(a.queue[..k])
            && forall e | e in a.queue :: e in a.queue[..k] <==> e.time <= now
  {
    var k := DueCount(a.queue, now);
    DueIsPrefix(a.queue, now);
    forall e | e in a.queue && e.time <= now ensures e in a.queue[..k] {
      var i :| 0 <= i < |a.queue| && a.queue[i] == e;
      assert a.queue[..k][i] == e;
    }
  }

  /** The server never restarts the numbering. */
  ghost predicate NeverRestarts<T>(ops: seq<Op<T>>) {
    forall i | 0 <= i < |ops| :: ops[i].Clear? ==> !ops[i].restart
  }

  ghost predicate NumberedInTurn<T>(a: Agenda<T>) {
    a.next == |a.pushed| && forall i | 0 <= i < |a.pushed| :: a.pushed[i].sequence == i
  }

  lemma {:induction false} HistoryNumbers<T>(a: Agenda<T>, ops: seq<Op<T>>)
    requires NumberedInTurn(a) && NeverRestarts(ops)
    ensures NumberedInTurn(DoAll(a, ops))
    decreases |ops|
  {
    if ops != [] { HistoryNumbers(Do(a, ops[0]), ops[1..]); }
  }

  lemma {:induction false} DistinctOccursOnce<T>(s: seq<Scheduled<T>>, i: nat)
    requires i < |s| && forall j | 0 <= j < |s| :: s[j].sequence == j
    ensures multiset(s)[s[i]] == 1
  {
    assert s == s[..i] + [s[i]] + s[i + 1..];
    assert s[i] !in s[..i] && s[i] !in s[i + 1..];
    assert multiset(s) == multiset(s[..i]) + multiset([s[i]]) + multiset(s[i + 1..]);
  }

  /** Exactly once: whatever happens, a pushed task waits, or has left the queue once; none is run twice. */
  lemma ExactlyOnce<T>(a: Agenda<T>, ops: seq<Op<T>>, i: nat)
    requires Sound(a) && NumberedInTurn(a) && NeverRestarts(ops) && i < |DoAll(a, ops).pushed|
    ensures var b := DoAll(a, ops);
            && multiset(b.gone)[b.pushed[i]] + multiset(b.queue)[b.pushed[i]] == 1
            && multiset(b.ran)[b.pushed[i]] <= 1
  {
    HistoryConserves(a, ops);
    HistoryNumbers(a, ops);
    DistinctOccursOnce(DoAll(a, ops).pushed, i);
  }

  // ---- first in, first out ----

  /** Zero delays, under a clock that never goes back and stands at `now` or later. */
  ghost predicate Prompt<T>(ops: seq<Op<T>>, now: int)
    decreases |ops|
  {
    ops == [] || match ops[0]
      case Push(_, after, t) => after == 0 && now <= t && Prompt(ops[1..], t)
      case Run(t) => now <= t && Prompt(ops[1..], t)
      case Clear(restart) => !restart && Prompt(ops[1..], now)
  }

  /** Everything queued is due, and the whole history is first in, first out. */
  ghost predicate Fifo<T>(a: Agenda<T>, now: int) {
    && Sound(a) && a.gone + a.queue == a.pushed
    && forall i | 0 <= i < |a.queue| :: a.queue[i].time <= now
  }

  lemma {:induction false} AllDue<T>(queue: seq<Scheduled<T>>, now: int)
    requires forall i | 0 <= i < |queue| :: queue[i].time <= now
    ensures DueCount(queue, now) == |queue|
    decreases |queue|
  {
    if queue != [] { AllDue(queue[1..], now); }
  }

  /** The time of a prompt operation, which a Clear does not advance. */
  function TimeOf<T>(op: Op<T>, now: int): int {
    match op
    case Push(_, _, t) => t
    case Run(t) => t
    case Clear(_) => now
  }

  lemma PromptPush<T>(a: Agenda<T>, task: T, t: int, now: int)
    requires Fifo(a, now) && now <= t
    ensures Fifo(Do(a, Push(task, 0, t)), t)
  {
    var e := Scheduled(t, a.next, task);
    PushKeepsSound(a, task, 0, t);
    forall i | 0 <= i < |a.queue| ensures Before(a.queue[i], e) {
      assert a.queue[i].time <= now && a.queue[i].sequence < a.next;
    }
    InsertLast(a.queue, e);
    assert a.gone + (a.queue + [e]) == a.pushed + [e];
  }

  lemma PromptRun<T>(a: Agenda<T>, t: int, now: int)
    requires Fifo(a, now) && now <= t
    ensures Fifo(Do(a, Run(t)), t) && Do(a, Run(t)).queue == []
  {
    RunKeepsSound(a, t);
    AllDue(a.queue, t);
    assert a.queue[..|a.queue|] == a.queue;
  }

  lemma DoKeepsFifo<T>(a: Agenda<T>, op: Op<T>, now: int)
    requires Fifo(a, now) && Prompt([op], now)
    ensures Fifo(Do(a, op), TimeOf(op, now)) && (op.Run? ==> Do(a, op).queue == [])
  {
    match op {
      case Push(task, after, t) => PromptPush(a, task, t, now);
      case Run(t) => PromptRun(a, t, now);
      case Clear(restart) =>
    }
  }

  /**
   * With zero delays and a clock that never goes back, tasks leave in the order in which they were pushed, and
   * every DoTasks empties the queue.
   */
  lemma {:induction false} PromptIsFifo<T>(a: Agenda<T>, ops: seq<Op<T>>, now: int)
    requires Fifo(a, now) && Prompt(ops, now)
    ensures DoAll(a, ops).gone + DoAll(a, ops).queue == DoAll(a, ops).pushed
    ensures ops != [] && ops[|ops| - 1].Run? ==> DoAll(a, ops).queue == []
    decreases |ops|
  {
    if ops != [] {
      DoKeepsFifo(a, ops[0], now);
      PromptIsFifo(Do(a, ops[0]), ops[1..], TimeOf(ops[0], now));
    }
  }
}

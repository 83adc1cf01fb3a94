/**
 * The accept machinery: a fixed set of accept events, each posted to the kernel, completed on some thread, and
 * posted again, with one counter that decides when shutdown may go on.
 */
module Accept {

  const MAX_ACCEPT_COUNT := 1000

  /** A completion being handled: before ProcessAccept or the reset, before RegisterAccept, before FinishAccept. */
  datatype Stage = Arrived | ToRegister | ToFinish

  datatype Handler = Handler(event: nat, failed: bool, stage: Stage)

  /** The thread inside RegisterAccept, which holds the mutex: a handler, or InitAccept. */
  datatype Registration = Nobody | ByInit(event: nat) | ByHandler(id: int)

  /**
   * `posted` events belong to the kernel; `ready` ones hold a session. `crashed` records a failed ASSERT_CRASH.
   * A stopped manager is never initialised again.
   */
  datatype State = State(
    initialised: bool,
    accepting: bool,
    stopped: bool,
    nextEvent: nat,
    outstanding: int,
    posted: set<nat>,
    ready: set<nat>,
    handlers: map<int, Handler>,
    registering: Registration,
    crashed: bool)

  const START := State(false, false, false, 0, 0, {}, {}, map[], Nobody, false)

  datatype Step =
    | Init
    | InitNext
    | Complete(event: nat, id: int, failed: bool)
    | Process(id: int)
    | Register(id: int)
    | AcceptExReturns(ok: bool)
    | Finish(id: int)
    | Stop

  predicate Enabled(s: State, step: Step) {
    match step
    case Init => !s.initialised && !s.stopped && s.registering == Nobody
    case InitNext => s.initialised && s.nextEvent < MAX_ACCEPT_COUNT && s.registering == Nobody
    case Complete(event, id, _) => event in s.posted && id !in s.handlers
    case Process(id) => id in s.handlers && s.handlers[id].stage == Arrived
    case Register(id) => id in s.handlers && s.handlers[id].stage == ToRegister && s.registering == Nobody
    case AcceptExReturns(_) => s.registering != Nobody && (s.registering.ByHandler? ==> s.registering.id in s.handlers)
    case Finish(id) => id in s.handlers && s.handlers[id].stage == ToFinish
    case Stop => s.registering == Nobody
  }

  function WithStage(s: State, id: int, stage: Stage): State
    requires id in s.handlers
  {
    s.(handlers := s.handlers[id := s.handlers[id].(stage := stage)])
  }

  /** FinishAccept: the counter must have been positive. */
  function Decrement(s: State): State {
    s.(outstanding := s.outstanding - 1, crashed := s.crashed || s.outstanding <= 0)
  }

  function Apply(s: State, step: Step): State
    requires Enabled(s, step)
  {
    match step
    case Init => s.(initialised := true, accepting := true)
    case InitNext =>
      var e := s.nextEvent;
      var s := s.(nextEvent := e + 1);
      if s.accepting then s.(outstanding := s.outstanding + 1, ready := s.ready + {e}, registering := ByInit(e)) else s
    case Complete(event, id, failed) =>
      s.(posted := s.posted - {event}, handlers := s.handlers[id := Handler(event, failed, Arrived)])
    case Process(id) =>
      var e := s.handlers[id].event;
      WithStage(s.(ready := s.ready - {e}, crashed := s.crashed || (!s.handlers[id].failed && e !in s.ready)),
                id, ToRegister)
    case Register(id) =>
      if s.accepting then
        s.(outstanding := s.outstanding + 1, ready := s.ready + {s.handlers[id].event}, registering := ByHandler(id))
      else WithStage(s, id, ToFinish)
    case AcceptExReturns(ok) =>
      var e := if s.registering.ByInit? then s.registering.event else s.handlers[s.registering.id].event;
      var t := if s.registering.ByHandler? then WithStage(s, s.registering.id, ToFinish) else s;
      var t := t.(registering := Nobody);
      if ok then t.(posted := t.posted + {e}) else Decrement(t.(ready := t.ready - {e}))
    case Finish(id) => Decrement(s.(handlers := map i | i in s.handlers && i != id :: s.handlers[i]))
    case Stop => s.(accepting := false, stopped := true)
  }

  /** This handler alone may touch its event. */
  predicate Owns(h: Handler) {
    h.stage != ToFinish
  }

  ghost predicate Counted(s: State) {
    s.outstanding == |s.posted| + |s.handlers| + if s.registering == Nobody then 0 else 1
  }

  /** At any time an event belongs to the kernel, to one handler, or to nobody. */
  ghost predicate Exclusive(s: State) {
    && (forall e | e in s.posted :: e < s.nextEvent && e in s.ready)
    && (forall i | i in s.handlers :: s.handlers[i].event < s.nextEvent)
    && (forall i | i in s.handlers && Owns(s.handlers[i]) :: s.handlers[i].event !in s.posted)
    && (forall i, j | i in s.handlers && j in s.handlers && i != j && Owns(s.handlers[i]) && Owns(s.handlers[j]) ::
          s.handlers[i].event != s.handlers[j].event)
    && (forall i | i in s.handlers && s.handlers[i].stage == Arrived :: s.handlers[i].event in s.ready)
  }

  ghost predicate RegistrationOK(s: State) {
    && (s.registering.ByHandler? ==>
          s.registering.id in s.handlers && s.handlers[s.registering.id].stage == ToRegister
          && s.handlers[s.registering.id].event in s.ready)
    && (s.registering.ByInit? ==>
          && s.registering.event + 1 == s.nextEvent
          && s.registering.event !in s.posted && s.registering.event in s.ready
          && forall i | i in s.handlers :: s.handlers[i].event < s.registering.event)
  }

  ghost predicate Inv(s: State) {
    !s.crashed && Counted(s) && Exclusive(s) && RegistrationOK(s) && (s.stopped ==> !s.accepting)
  }

  lemma SizeByKeys<V>(a: map<int, V>, b: map<int, V>, id: int)
    ensures a.Keys == b.Keys ==> |a| == |b|
    ensures id !in a && b.Keys == a.Keys + {id} ==> |b| == |a| + 1
  {
    assert |a| == |a.Keys| && |b| == |b.Keys|;
  }

  lemma CompleteKeepsInv(s: State, event: nat, id: int, failed: bool)
    requires Inv(s) && Enabled(s, Complete(event, id, failed))
    ensures Inv(Apply(s, Complete(event, id, failed)))
  {
    SizeByKeys(s.handlers, Apply(s, Complete(event, id, failed)).handlers, id);
  }

  lemma ProcessKeepsInv(s: State, id: int)
    requires Inv(s) && Enabled(s, Process(id))
    ensures Inv(Apply(s, Process(id)))
  {
    SizeByKeys(s.handlers, Apply(s, Process(id)).handlers, id);
  }

  lemma RegisterKeepsInv(s: State, id: int)
    requires Inv(s) && Enabled(s, Register(id))
    ensures Inv(Apply(s, Register(id)))
  {
    SizeByKeys(s.handlers, Apply(s, Register(id)).handlers, id);
  }

  lemma InitReturnKeepsInv(s: State, ok: bool)
    requires Inv(s) && s.registering.ByInit?
    ensures Inv(Apply(s, AcceptExReturns(ok)))
  {
  }

  lemma HandlerReturnKeepsInv(s: State, ok: bool)
    requires Inv(s) && s.registering.ByHandler?
    ensures Inv(Apply(s, AcceptExReturns(ok)))
  {
    SizeByKeys(s.handlers, Apply(s, AcceptExReturns(ok)).handlers, 0);
  }

  lemma FinishKeepsInv(s: State, id: int)
    requires Inv(s) && Enabled(s, Finish(id))
    ensures Inv(Apply(s, Finish(id)))
  {
    var t := Apply(s, Finish(id));
    assert s.handlers.Keys == t.handlers.Keys + {id};
    SizeByKeys(t.handlers, s.handlers, id);
  }

  /** The inductive step, for any thread's step. */
  lemma StepKeepsInv(s: State, step: Step)
    requires Inv(s) && Enabled(s, step)
    ensures Inv(Apply(s, step))
  {
    match step {
      case Complete(event, id, failed) => CompleteKeepsInv(s, event, id, failed);
      case Process(id) => ProcessKeepsInv(s, id);
      case Register(id) => RegisterKeepsInv(s, id);
      case AcceptExReturns(ok) =>
        if s.registering.ByInit? { InitReturnKeepsInv(s, ok); } else { HandlerReturnKeepsInv(s, ok); }
      case Finish(id) => FinishKeepsInv(s, id);
      case _ =>
    }
  }

  ghost predicate IsRun(s: State, steps: seq<Step>)
    decreases |steps|
  {
    steps == [] || (Enabled(s, steps[0]) && IsRun(Apply(s, steps[0]), steps[1..]))
  }

  function After(s: State, steps: seq<Step>): State
    requires IsRun(s, steps)
    decreases |steps|
  {
    if steps == [] then s else After(Apply(s, steps[0]), steps[1..])
  }

  lemma {:induction false} RunKeepsInv(s: State, steps: seq<Step>)
    requires Inv(s) && IsRun(s, steps)
    ensures Inv(After(s, steps))
    decreases |steps|
  {
    if steps != [] {
      StepKeepsInv(s, steps[0]);
      RunKeepsInv(Apply(s, steps[0]), steps[1..]);
    }
  }

  /**
   * In every interleaving the counter is the number of posted accepts, unfinished handlers and registrations in
   * progress; no assertion fails: the counter never goes below zero and every completed event has its session.
   */
  lemma CounterCounts(steps: seq<Step>)
    requires IsRun(START, steps)
    ensures var s := After(START, steps);
            && !s.crashed
            && s.outstanding == |s.posted| + |s.handlers| + (if s.registering == Nobody then 0 else 1)
            && (forall e | e in s.posted :: e in s.ready)
  {
    RunKeepsInv(START, steps);
  }

  /** IsDrained, read under the mutex. */
  predicate IsDrained(s: State) {
    s.registering == Nobody && !s.accepting && s.outstanding == 0
  }

  lemma DrainedIsEmpty(s: State)
    requires Inv(s) && IsDrained(s)
    ensures s.posted == {} && s.handlers == map[]
  {
  }

  lemma DrainedStepStays(s: State, step: Step)
    requires Inv(s) && IsDrained(s) && s.stopped && Enabled(s, step)
    ensures IsDrained(Apply(s, step)) && Apply(s, step).stopped
  {
    DrainedIsEmpty(s);
  }

  /** Once drained after StopAccepting, drained for ever, with nothing posted and no handler running. */
  lemma {:induction false} DrainedForEver(s: State, steps: seq<Step>)
    requires Inv(s) && IsDrained(s) && s.stopped && IsRun(s, steps)
    ensures var t := After(s, steps);
            IsDrained(t) && t.stopped && t.posted == {} && t.handlers == map[]
    decreases |steps|
  {
    if steps == [] {
      DrainedIsEmpty(s);
    } else {
      StepKeepsInv(s, steps[0]);
      DrainedStepStays(s, steps[0]);
      DrainedForEver(Apply(s, steps[0]), steps[1..]);
    }
  }

  /** After StopAccepting nothing is posted any more: the work left only shrinks. */
  lemma StoppedOnlyShrinks(s: State, step: Step)
    requires Inv(s) && s.stopped && s.registering == Nobody && Enabled(s, step)
    ensures var t := Apply(s, step);
            && t.outstanding <= s.outstanding && t.posted <= s.posted && t.registering == Nobody
            && (step.Finish? ==> t.outstanding == s.outstanding - 1)
  {
  }

  /** What a thread that handles a completion does before FinishAccept, unless others come in between. */
  function Handled(s: State, id: int, posts: bool): (t: State)
    requires Enabled(s, Process(id)) && s.registering == Nobody
    ensures id in t.handlers && t.handlers[id] == s.handlers[id].(stage := ToFinish)
  {
    var s := Apply(Apply(s, Process(id)), Register(id));
    if s.accepting then Apply(s, AcceptExReturns(posts)) else s
  }

  /**
   * AcceptManager as an object. A method is what one thread does between other threads' steps; `state` follows
   * the steps, including the kernel's and the other threads' share of them.
   */
  class AcceptManager {
    var accepting: bool
    var outstandingAccepts: int
    var acceptEvents: nat
    var sessions: set<nat>
    ghost var state: State

    constructor ()
      ensures Valid() && state == START
    {
      accepting, outstandingAccepts, acceptEvents, sessions, state := false, 0, 0, {}, START;
    }

    ghost predicate Valid()
      reads this
    {
      && Inv(state) && accepting == state.accepting && outstandingAccepts == state.outstanding
      && acceptEvents == state.nextEvent && sessions == state.ready
    }

    /** A completion taken off the port by some thread. */
    ghost method Dequeue(event: nat, id: int, failed: bool)
      requires Valid() && Enabled(state, Complete(event, id, failed))
      modifies this`state
      ensures Valid() && state == Apply(old(state), Complete(event, id, failed))
    {
      StepKeepsInv(state, Complete(event, id, failed));
      state := Apply(state, Complete(event, id, failed));
    }

    /** The lock is held throughout; `posts` is what AcceptEx answers. */
    method RegisterAccept(event: nat, ghost id: int, posts: bool) returns (registered: bool)
      requires Valid() && Enabled(state, Register(id)) && event == state.handlers[id].event
      modifies this
      ensures Valid() && registered == (old(accepting) && posts)
      ensures var s := Apply(old(state), Register(id));
              state == if old(accepting) then Apply(s, AcceptExReturns(posts)) else s
      ensures state.posted == old(state).posted + if registered then {event} else {}
      ensures outstandingAccepts == old(outstandingAccepts) + if registered then 1 else 0
    {
      StepKeepsInv(state, Register(id));
      state := Apply(state, Register(id));
      if !accepting { return false; }
      sessions := sessions + {event};
      outstandingAccepts := outstandingAccepts + 1;
      StepKeepsInv(state, AcceptExReturns(posts));
      state := Apply(state, AcceptExReturns(posts));
      if !posts {
        sessions := sessions - {event};
        outstandingAccepts := outstandingAccepts - 1;
        return false;
      }
      return true;
    }

    /** The event gives up its session: moved out by ProcessAccept, reset by OnIocpError. */
    method GiveUp(event: nat, ghost id: int)
      requires Valid() && Enabled(state, Process(id)) && event == state.handlers[id].event
      modifies this
      ensures Valid() && state == Apply(old(state), Process(id))
    {
      StepKeepsInv(state, Process(id));
      state := Apply(state, Process(id));
      sessions := sessions - {event};
    }

    /**
     * `associates`: the accepted socket takes the listening socket's options and is registered with the port.
     * `published`: the session goes to ActivateSession.
     */
    method ProcessAccept(event: nat, ghost id: int, associates: bool) returns (published: bool)
      requires Valid() && Enabled(state, Process(id)) && event == state.handlers[id].event
      modifies this
      ensures Valid() && state == Apply(old(state), Process(id))
      ensures published == (old(accepting) && associates)
    {
      GiveUp(event, id);
      if !accepting { return false; }
      if !associates { return false; }
      return true;
    }

    /** A stopped manager publishes no session any more. */
    method Processing(event: nat, ghost id: int, associates: bool, posts: bool) returns (published: bool)
      requires Valid() && state.registering == Nobody
      requires id in state.handlers && state.handlers[id] == Handler(event, false, Arrived)
      modifies this
      ensures Valid() && state == Handled(old(state), id, posts)
      ensures published == (old(accepting) && associates)
      ensures state.posted == old(state).posted + if old(accepting) && posts then {event} else {}
      ensures id in state.handlers && state.handlers[id].stage == ToFinish && state.registering == Nobody
    {
      assert event in sessions;
      published := ProcessAccept(event, id, associates);
      var registered := RegisterAccept(event, id, posts);
    }

    method FinishAccept(ghost id: int)
      requires Valid() && Enabled(state, Finish(id))
      modifies this
      ensures Valid() && state == Apply(old(state), Finish(id))
    {
      StepKeepsInv(state, Finish(id));
      state := Apply(state, Finish(id));
      var previous := outstandingAccepts;
      outstandingAccepts := outstandingAccepts - 1;
      assert previous > 0;
    }

    method OnIocpError(event: nat, ghost id: int, posts: bool)
      requires Valid() && state.registering == Nobody
      requires id in state.handlers && state.handlers[id] == Handler(event, true, Arrived)
      modifies this
      ensures Valid() && state == Apply(Handled(old(state), id, posts), Finish(id))
      ensures state.posted == old(state).posted + if old(accepting) && posts then {event} else {}
      ensures id !in state.handlers && state.registering == Nobody
    {
      GiveUp(event, id);
      var registered := RegisterAccept(event, id, posts);
      FinishAccept(id);
    }

    method StopAccepting()
      requires Valid() && state.registering == Nobody
      modifies this
      ensures Valid() && state == Apply(old(state), Stop)
    {
      StepKeepsInv(state, Stop);
      state := Apply(state, Stop);
      accepting := false;
    }

    method InitOne(posts: bool) returns (registered: bool)
      requires Valid() && Enabled(state, InitNext)
      modifies this
      ensures Valid() && registered == (old(accepting) && posts)
      ensures accepting == old(accepting) && acceptEvents == old(acceptEvents) + 1
      ensures state.registering == Nobody && state.initialised
      ensures |state.posted| == |old(state.posted)| + (if registered then 1 else 0)
    {
      StepKeepsInv(state, InitNext);
      state := Apply(state, InitNext);
      var event := acceptEvents;
      acceptEvents := acceptEvents + 1;
      if !accepting { return false; }
      sessions := sessions + {event};
      outstandingAccepts := outstandingAccepts + 1;
      StepKeepsInv(state, AcceptExReturns(posts));
      state := Apply(state, AcceptExReturns(posts));
      if !posts {
        sessions := sessions - {event};
        outstandingAccepts := outstandingAccepts - 1;
      }
      return posts;
    }

    method Open()
      requires Valid() && Enabled(state, Init)
      modifies this
      ensures Valid() && state == Apply(old(state), Init)
    {
      StepKeepsInv(state, Init);
      state := Apply(state, Init);
      accepting := true;
    }

    method InitEach(posts: seq<bool>) returns (registeredAccepts: nat)
      requires Valid() && accepting && acceptEvents == 0 && state.initialised && state.registering == Nobody
      requires |posts| == MAX_ACCEPT_COUNT && state.posted == {}
      modifies this
      ensures Valid() && accepting && acceptEvents == MAX_ACCEPT_COUNT && state.registering == Nobody
      ensures |state.posted| == registeredAccepts
      ensures registeredAccepts > 0 <==> true in posts
    {
      registeredAccepts := 0;
      var i := 0;
      while i < |posts|
        invariant 0 <= i <= |posts|
        invariant Valid() && accepting && acceptEvents == i && state.initialised && state.registering == Nobody
        invariant |state.posted| == registeredAccepts
        invariant registeredAccepts > 0 <==> true in posts[..i]
      {
        assert posts[..i + 1] == posts[..i] + [posts[i]];
        var registered := InitOne(posts[i]);
        if registered { registeredAccepts := registeredAccepts + 1; }
        i := i + 1;
      }
      assert posts[..i] == posts;
    }

    /**
     * Posts every accept event; `setUp`: the listening socket could be created, registered, bound and opened;
     * `posts[i]` is what AcceptEx answers for event `i`.
     */
    method InitAccept(setUp: bool, posts: seq<bool>) returns (ok: bool)
      requires Valid() && state == START && |posts| == MAX_ACCEPT_COUNT
      modifies this
      ensures Valid() && accepting == ok
      ensures if setUp then acceptEvents == MAX_ACCEPT_COUNT else state == START
      ensures ok <==> setUp && true in posts
      ensures ok <==> |state.posted| > 0
    {
      if !setUp { return false; }
      Open();
      var registeredAccepts := InitEach(posts);
      if registeredAccepts > 0 { return true; }
      StopAccepting();
      return false;
    }

    method IsDrainedNow() returns (drained: bool)
      requires Valid() && state.registering == Nobody
      ensures drained == IsDrained(state)
      ensures drained <==> !accepting && state.posted == {} && state.handlers == map[]
    {
      drained := !accepting && outstandingAccepts == 0;
      if drained { DrainedIsEmpty(state); }
    }
  }
}

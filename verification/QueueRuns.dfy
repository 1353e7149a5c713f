/** The results about all runs of the system: the order of events, the bounds of the flow, and the
    memory that travels through the queue. */
module QueueRuns {
  import opened Links
  import opened FlowModel
  import opened FlowInvariant
  import opened FlowDelivery
  import opened FlowRuns
  import opened FlowCompletion
  import opened EventQueue

  // ---------------------------------------------------------------- the invariant

  function Events(queue: seq<Item>): seq<Event> {
    if queue == [] then [] else [queue[0].event] + Events(queue[1..])
  }

  /** The events that went through the queue: all but the runs of the timeout work. */
  function Through(evs: seq<Event>): seq<Event> {
    if evs == [] then []
    else Through(evs[..|evs| - 1]) + if evs[|evs| - 1].EvExpire? then [] else [evs[|evs| - 1]]
  }

  /** Queued copies of block b. */
  function Queued(queue: seq<Item>, b: nat): nat {
    if queue == [] then 0 else (if queue[0].block == Some(b) then 1 else 0) + Queued(queue[1..], b)
  }

  lemma {:induction false} QueueAppend(queue: seq<Item>, i: Item, b: nat)
    ensures Events(queue + [i]) == Events(queue) + [i.event]
    ensures Queued(queue + [i], b) == Queued(queue, b) + if i.block == Some(b) then 1 else 0
  {
    if queue == [] {
      assert queue + [i] == [i];
    } else {
      assert (queue + [i])[1..] == queue[1..] + [i];
      QueueAppend(queue[1..], i, b);
    }
  }

  lemma {:induction false} RunAppend(env: Env, s: Flow, evs: seq<Event>, e: Event)
    ensures Run(env, s, evs + [e]) == Step(env, Run(env, s, evs), e)
    decreases |evs|
  {
    hide Step;
    if evs == [] {
      assert evs + [e] == [e];
      assert [e][1..] == [];
    } else {
      assert (evs + [e])[1..] == evs[1..] + [e];
      RunAppend(env, Step(env, s, evs[0]), evs[1..], e);
    }
  }

  /** Where a block can be: pending in the flow, freed by it, queued, freed outside, or leaked. */
  ghost function Places(y: System, b: nat): nat {
    Copies(y.flow, b) + Queued(y.queue, b) + Frees(y.freed, b) + Frees(y.leaked, b)
  }

  ghost predicate Sound(env: Env, config: Config, y: System, b: nat) {
    && y.flow == Run(env, Boot(env, config), y.done)
    && y.posted == Through(y.done) + Events(y.queue)
    && (forall i :: 0 <= i < |y.queue| ==> SendNamed(y.queue[i]))
    && Places(y, b) == if b < y.next then 1 else 0
  }

  /** A send is named by its own block, and every context has one. */
  ghost predicate SendNamed(i: Item) {
    && (i.event.EvSend? ==> i.block == Some(i.event.req.tag))
    && (HasContext(i.event) <==> i.block.Some?)
    && !i.event.EvExpire?
  }

  lemma NamedWell(y: System, e: Event)
    requires !e.EvExpire?
    ensures SendNamed(ItemOf(y, e)) && (ItemOf(y, e).block.Some? ==> ItemOf(y, e).block.value == y.next)
  {
  }

  lemma AppendSound(env: Env, config: Config, y: System, i: Item, b: nat)
    requires Sound(env, config, y, b) && SendNamed(i) && (i.block.Some? ==> i.block.value == y.next)
    ensures Sound(env, config, Append(y, i), b)
  {
    hide Run, Copies, Through, SendNamed;
    QueueAppend(y.queue, i, b);
    assert Through(y.done) + (Events(y.queue) + [i.event]) == (Through(y.done) + Events(y.queue)) + [i.event];
  }

  lemma EnqueueSound(env: Env, config: Config, capacity: nat, y: System, e: Event, b: nat)
    requires Sound(env, config, y, b) && !e.EvExpire?
    ensures Sound(env, config, Enqueue(capacity, y, e), b)
  {
    hide Run, Copies, Through, SendNamed, HasContext, Careless, Append, ItemOf;
    NamedWell(y, e);
    AppendSound(env, config, y, ItemOf(y, e), b);
  }

  lemma PostSound(env: Env, config: Config, capacity: nat, y: System, e: Event, memory: bool, b: nat)
    requires Sound(env, config, y, b)
    ensures Sound(env, config, PostEvent(capacity, y, e, memory), b)
  {
    hide Run, Step, Copies, Through, Enqueue;
    if Wanted(y.flow, e) {
      EnqueueSound(env, config, capacity, y, e, b);
      EnqueueSound(env, config, capacity, y, EvIdle, b);
    }
  }

  lemma ThroughAppend(evs: seq<Event>, e: Event)
    ensures Through(evs + [e]) == if e.EvExpire? then Through(evs) else Through(evs) + [e]
  {
    assert (evs + [e])[..|evs|] == evs;
  }

  lemma DispatchPlaces(env: Env, y: System, b: nat)
    requires y.queue != [] && SendNamed(y.queue[0])
    ensures Places(DispatchOne(env, y), b) == Places(y, b)
  {
    hide Step, Copies;
    StepCounts(env, y.flow, y.queue[0].event, b);
  }

  lemma DispatchSound(env: Env, config: Config, y: System, b: nat)
    requires Sound(env, config, y, b)
    ensures Sound(env, config, DispatchOne(env, y), b)
  {
    hide Run, Step, Places, Through, LoopFrees, SendNamed;
    if y.queue != [] {
      var head := y.queue[0];
      assert SendNamed(head);
      DispatchPlaces(env, y, b);
      RunAppend(env, Boot(env, config), y.done, head.event);
      ThroughAppend(y.done, head.event);
      assert !head.event.EvExpire? by { NamedQueues(head); }
      assert Through(y.done) + Events(y.queue) == (Through(y.done) + [head.event]) + Events(y.queue[1..]);
    }
  }

  lemma NamedQueues(i: Item)
    requires SendNamed(i)
    ensures !i.event.EvExpire?
  {
  }

  lemma ExpireSound(env: Env, config: Config, capacity: nat, y: System, b: nat)
    requires Sound(env, config, y, b)
    ensures Sound(env, config, ExpireOne(env, capacity, y), b)
  {
    hide Run, Step, Copies, Through, Enqueue;
    if y.flow.timer {
      var ran := y.(flow := Step(env, y.flow, EvExpire), done := y.done + [EvExpire]);
      RunAppend(env, Boot(env, config), y.done, EvExpire);
      StepCounts(env, y.flow, EvExpire, b);
      ThroughAppend(y.done, EvExpire);
      EnqueueSound(env, config, capacity, ran, EvTimeout, b);
    }
  }

  lemma ActSound(env: Env, config: Config, capacity: nat, y: System, a: Action, b: nat)
    requires Sound(env, config, y, b)
    ensures Sound(env, config, Act(env, capacity, y, a), b)
  {
    hide Sound;
    match a {
      case Post(e, memory) => PostSound(env, config, capacity, y, e, memory, b);
      case Dispatch => DispatchSound(env, config, y, b);
      case Expire => ExpireSound(env, config, capacity, y, b);
    }
  }

  lemma {:induction false} ActsSound(env: Env, config: Config, capacity: nat, y: System, acts: seq<Action>, b: nat)
    requires Sound(env, config, y, b)
    ensures Sound(env, config, Acts(env, capacity, y, acts), b)
    decreases |acts|
  {
    hide Sound, Act;
    if acts != [] {
      ActSound(env, config, capacity, y, acts[0], b);
      ActsSound(env, config, capacity, Act(env, capacity, y, acts[0]), acts[1..], b);
    }
  }

  lemma BootSound(env: Env, config: Config, b: nat)
    ensures Sound(env, config, EventQueue.Start(env, config), b)
  {
  }

  lemma StartSound(env: Env, config: Config, capacity: nat, acts: seq<Action>, b: nat)
    ensures Sound(env, config, Acts(env, capacity, EventQueue.Start(env, config), acts), b)
  {
    BootSound(env, config, b);
    ActsSound(env, config, capacity, EventQueue.Start(env, config), acts, b);
  }

  // ---------------------------------------------------------------- main results

  /** Every block ever allocated is in exactly one place: queued, pending, freed once, or leaked.
      No block is freed twice, and none is freed before it was allocated. */
  lemma MemoryConserved(env: Env, config: Config, capacity: nat, acts: seq<Action>, b: nat)
    ensures var y := Acts(env, capacity, EventQueue.Start(env, config), acts);
            && Frees(y.flow.notes, b) + Frees(y.freed, b) + Frees(y.leaked, b)
                 + Queued(y.queue, b) + Held(y.flow, b) == (if b < y.next then 1 else 0)
  {
    StartSound(env, config, capacity, acts, b);
  }

  /** Events are handled in the order they were accepted, none lost and none twice, so every run
      of the system is a run of the flow. */
  lemma QueueIsFifo(env: Env, config: Config, capacity: nat, acts: seq<Action>)
    ensures var y := Acts(env, capacity, EventQueue.Start(env, config), acts);
            y.posted == Through(y.done) + Events(y.queue) && y.flow == Run(env, Boot(env, config), y.done)
  {
    StartSound(env, config, capacity, acts, 0);
  }

  /** A message goes through the queue at most once, so the bounds on runs of the flow hold for
      every message of every run of the system. */
  lemma SystemBounds(env: Env, config: Config, capacity: nat, acts: seq<Action>, tag: nat)
    requires SourceLimits(env)
    ensures var y := Acts(env, capacity, EventQueue.Start(env, config), acts);
            && Accepts(y.flow.calls, tag) <= 9 + 2 * Retargets(y.flow.notes, tag)
            && Timeouts(y.flow.notes, tag) <= 3
            && Sends(y.done, tag) <= 1
  {
    var y := Acts(env, capacity, EventQueue.Start(env, config), acts);
    StartSound(env, config, capacity, acts, tag);
    FreedExactlyOnce(env, config, y.done, tag);
    BoundedTransmissions(env, config, y.done, tag);
    BoundedTimeouts(env, config, y.done, tag);
  }

  // ---------------------------------------------------------------- what is accepted

  /** A result or a foreign result that no message in flight waits for, or a timeout that the work did
      not post. */
  predicate Ignored(s: Flow, e: Event) {
    || ((e.EvResult? || e.EvForeign?) && !(s.mode && s.pending.Some? && s.inflight))
    || e.EvTimeout? || e.EvExpire?
  }

  /** The commands that carry no context. */
  predicate Bare(e: Event) {
    e.EvSwitch? || e.EvCancel? || e.EvReport? || e.EvDeinit? || e.EvIdle?
  }

  /** Whose context a full queue loses, told producer by producer. */
  predicate LosesContext(e: Event) {
    e.EvStatus? || e == EvTask(ReleaseBuffer) || e == EvTask(FinalizeResponse) || e == EvTask(CancelTransfer(true))
    || e == EvTask(PrintStats) || e == EvTask(PrintParams)
  }

  /** What becomes of every event that is posted: dropped, queued, or, where the queue is full or the
      memory short, given up with its context freed or lost. */
  lemma PostExactly(capacity: nat, y: System, e: Event, memory: bool)
    ensures var z, room, block := PostEvent(capacity, y, e, memory), |y.queue| < capacity, Some(y.next);
            var named := if e.EvSend? then EvSend(e.req.(tag := y.next)) else e;
            if Ignored(y.flow, e) then z == y
            else if Bare(e) then
              z == if room then y.(queue := y.queue + [Item(e, None)], posted := y.posted + [e]) else y
            else if !memory then
              z == if e.EvStatus? && room
                   then y.(queue := y.queue + [Item(EvIdle, None)], posted := y.posted + [EvIdle])
                   else y
            else if e == EvTask(CancelTransfer(false)) then
              z == y.(next := y.next + 1, leaked := After(y.leaked, Freed(y.next)))
            else if room then
              z == y.(next := y.next + 1, queue := y.queue + [Item(named, block)], posted := y.posted + [named])
            else if LosesContext(e) then z == y.(next := y.next + 1, leaked := After(y.leaked, Freed(y.next)))
            else z == y.(next := y.next + 1, freed := After(y.freed, Freed(y.next)))
  {
  }

  /** In every run, a result that matches the message in flight is accepted when there is memory and
      room. */
  lemma MatchingAccepted(env: Env, config: Config, capacity: nat, acts: seq<Action>, res: Result)
    ensures var y := Acts(env, capacity, EventQueue.Start(env, config), acts);
            var z := Acts(env, capacity, EventQueue.Start(env, config), acts + [Post(EvResult(res), true)]);
            Matches(y.flow, res) && |y.queue| < capacity ==> z.posted == y.posted + [EvResult(res)]
  {
    hide Acts, PostEvent;
    var y := Acts(env, capacity, EventQueue.Start(env, config), acts);
    ActsAppend(env, capacity, EventQueue.Start(env, config), acts, Post(EvResult(res), true));
    PostExactly(capacity, y, EvResult(res), true);
  }

  /** k turns of the consumer. */
  function Turns(k: nat): seq<Action> {
    if k == 0 then [] else [Dispatch] + Turns(k - 1)
  }

  lemma FirstTurn(env: Env, capacity: nat, y: System, k: nat)
    requires k > 0
    ensures Acts(env, capacity, y, Turns(k)) == Acts(env, capacity, DispatchOne(env, y), Turns(k - 1))
  {
    hide DispatchOne;
    assert Turns(k)[1..] == Turns(k - 1);
  }

  lemma OneTurn(env: Env, y: System)
    requires y.queue != []
    ensures var z, e := DispatchOne(env, y), y.queue[0].event;
            z.queue == y.queue[1..] && z.done == y.done + [e] && z.flow == Step(env, y.flow, e)
  {
    hide Step;
  }

  /** Accepted events wait for nothing but those before them: k turns of the consumer handle the first k
      queued events, in order. */
  lemma {:induction false} TurnsHandle(env: Env, capacity: nat, y: System, k: nat)
    requires k <= |y.queue|
    ensures var z := Acts(env, capacity, y, Turns(k));
            && z.queue == y.queue[k..] && z.done == y.done + Events(y.queue[..k])
            && z.flow == Run(env, y.flow, Events(y.queue[..k]))
    decreases k
  {
    hide Step, Acts, DispatchOne, Turns;
    if k == 0 {
      NoTurns(env, capacity, y);
    } else {
      var z, e := DispatchOne(env, y), y.queue[0].event;
      FirstTurn(env, capacity, y, k);
      OneTurn(env, y);
      TurnsHandle(env, capacity, z, k - 1);
      FirstEvent(y.queue, k);
      var rest := Events(z.queue[..k - 1]);
      assert (y.done + [e]) + rest == y.done + ([e] + rest);
      assert ([e] + rest)[1..] == rest;
      hide Events;
    }
  }

  lemma FirstEvent(queue: seq<Item>, k: nat)
    requires 0 < k <= |queue|
    ensures Events(queue[..k]) == [queue[0].event] + Events(queue[1..][..k - 1])
  {
    assert queue[..k][1..] == queue[1..][..k - 1];
  }

  lemma NoTurns(env: Env, capacity: nat, y: System)
    ensures Acts(env, capacity, y, Turns(0)) == y
  {
  }

  // ---------------------------------------------------------------- leaks

  /** The action allocates a context and loses it: a careless producer meets a full queue, or a
      cancel command has bad arguments. */
  predicate Forgets(capacity: nat, y: System, a: Action) {
    a.Post? && a.memory && Careless(a.event) && (|y.queue| >= capacity || Abandons(a.event))
  }

  /** The blocks of the contexts that a run loses. */
  ghost function Forgotten(env: Env, capacity: nat, y: System, acts: seq<Action>): set<nat>
    decreases |acts|
  {
    if acts == [] then {}
    else
      (if Forgets(capacity, y, acts[0]) then {y.next} else {})
      + Forgotten(env, capacity, Act(env, capacity, y, acts[0]), acts[1..])
  }

  lemma {:induction false} ForgottenFrom(env: Env, capacity: nat, y: System, acts: seq<Action>)
    ensures forall b :: b in Forgotten(env, capacity, y, acts) ==> y.next <= b
    ensures y.next <= Acts(env, capacity, y, acts).next
    decreases |acts|
  {
    hide Step;
    if acts != [] {
      ForgottenFrom(env, capacity, Act(env, capacity, y, acts[0]), acts[1..]);
    }
  }

  lemma {:induction false} LeakedForgotten(env: Env, capacity: nat, y: System, acts: seq<Action>, b: nat)
    ensures Frees(Acts(env, capacity, y, acts).leaked, b) ==
              Frees(y.leaked, b) + if b in Forgotten(env, capacity, y, acts) then 1 else 0
    decreases |acts|
  {
    hide Step;
    if acts != [] {
      var z := Act(env, capacity, y, acts[0]);
      LeakedForgotten(env, capacity, z, acts[1..], b);
      ForgottenFrom(env, capacity, z, acts[1..]);
      assert Frees(z.leaked, b) ==
             Frees(y.leaked, b) + if Forgets(capacity, y, acts[0]) && b == y.next then 1 else 0;
    }
  }

  /** Which contexts leak: those that a careless producer posted to a full queue, those of cancel
      commands with bad arguments, and no others.  Every other context ever allocated is queued,
      pending, or freed once. */
  lemma LeaksExactly(env: Env, config: Config, capacity: nat, acts: seq<Action>, b: nat)
    ensures var y := Acts(env, capacity, EventQueue.Start(env, config), acts);
            && b < y.next
            && Frees(y.flow.notes, b) + Frees(y.freed, b) + Queued(y.queue, b) + Held(y.flow, b) == 0
            <==> b in Forgotten(env, capacity, EventQueue.Start(env, config), acts)
    ensures var y := Acts(env, capacity, EventQueue.Start(env, config), acts);
            Frees(y.flow.notes, b) + Frees(y.freed, b) + Queued(y.queue, b) + Held(y.flow, b) <= 1
  {
    MemoryConserved(env, config, capacity, acts, b);
    LeakedForgotten(env, capacity, EventQueue.Start(env, config), acts, b);
  }

  // ---------------------------------------------------------------- counting contexts

  /** How many blocks below n were freed. */
  ghost function FreedBelow(log: Log<Note>, n: nat): nat {
    match log
    case Nil => 0
    case After(before, last) => FreedBelow(before, n) + if last.Freed? && last.tag < n then 1 else 0
  }

  ghost function QueuedBelow(queue: seq<Item>, n: nat): nat {
    if queue == [] then 0
    else (if queue[0].block.Some? && queue[0].block.value < n then 1 else 0) + QueuedBelow(queue[1..], n)
  }

  ghost function HeldBelow(s: Flow, n: nat): nat {
    if s.pending.Some? && s.pending.value.tag < n then 1 else 0
  }

  ghost function ForgottenBelow(forgotten: set<nat>, n: nat): set<nat> {
    set b | b in forgotten && b < n
  }

  lemma {:induction false} FreedNext(log: Log<Note>, n: nat)
    ensures FreedBelow(log, n + 1) == FreedBelow(log, n) + Frees(log, n) && FreedBelow(log, 0) == 0
  {
    match log
    case Nil =>
    case After(before, _) => FreedNext(before, n);
  }

  lemma {:induction false} QueuedNext(queue: seq<Item>, n: nat)
    ensures QueuedBelow(queue, n + 1) == QueuedBelow(queue, n) + Queued(queue, n) && QueuedBelow(queue, 0) == 0
  {
    if queue != [] {
      QueuedNext(queue[1..], n);
    }
  }

  lemma {:induction false} CountBelow(env: Env, config: Config, capacity: nat, acts: seq<Action>, n: nat)
    requires n <= Acts(env, capacity, EventQueue.Start(env, config), acts).next
    ensures var y := Acts(env, capacity, EventQueue.Start(env, config), acts);
            n == FreedBelow(y.flow.notes, n) + FreedBelow(y.freed, n) + QueuedBelow(y.queue, n)
                 + HeldBelow(y.flow, n)
                 + |ForgottenBelow(Forgotten(env, capacity, EventQueue.Start(env, config), acts), n)|
  {
    hide Acts, Forgotten, FreedBelow, QueuedBelow, Frees, Queued;
    var y := Acts(env, capacity, EventQueue.Start(env, config), acts);
    var forgotten := Forgotten(env, capacity, EventQueue.Start(env, config), acts);
    if n == 0 {
      FreedNext(y.flow.notes, 0);
      FreedNext(y.freed, 0);
      QueuedNext(y.queue, 0);
      assert ForgottenBelow(forgotten, 0) == {};
    } else {
      CountBelow(env, config, capacity, acts, n - 1);
      FreedNext(y.flow.notes, n - 1);
      FreedNext(y.freed, n - 1);
      QueuedNext(y.queue, n - 1);
      LeaksExactly(env, config, capacity, acts, n - 1);
      assert ForgottenBelow(forgotten, n) ==
             ForgottenBelow(forgotten, n - 1) + if n - 1 in forgotten then {n - 1} else {};
    }
  }

  /** The contexts freed, by the flow or by the loop and its producers. */
  ghost function FreedCount(log: Log<Note>): nat {
    match log
    case Nil => 0
    case After(before, last) => FreedCount(before) + if last.Freed? then 1 else 0
  }

  ghost function QueuedCount(queue: seq<Item>): nat {
    if queue == [] then 0 else (if queue[0].block.Some? then 1 else 0) + QueuedCount(queue[1..])
  }

  lemma {:induction false} FreedAll(log: Log<Note>, n: nat)
    requires forall b: nat :: n <= b ==> Frees(log, b) == 0
    ensures FreedBelow(log, n) == FreedCount(log)
  {
    match log
    case Nil =>
    case After(before, last) =>
      assert last.Freed? ==> Frees(log, last.tag) > 0;
      forall b: nat | n <= b
        ensures Frees(before, b) == 0
      {
        assert Frees(log, b) == 0;
      }
      FreedAll(before, n);
  }

  lemma {:induction false} QueuedAll(queue: seq<Item>, n: nat)
    requires forall b: nat :: n <= b ==> Queued(queue, b) == 0
    ensures QueuedBelow(queue, n) == QueuedCount(queue)
  {
    if queue != [] {
      assert queue[0].block.Some? ==> Queued(queue, queue[0].block.value) > 0;
      forall b: nat | n <= b
        ensures Queued(queue[1..], b) == 0
      {
        assert Queued(queue, b) == 0;
      }
      QueuedAll(queue[1..], n);
    }
  }

  /** In every run the contexts allocated are the contexts freed, queued, pending and forgotten. */
  lemma ContextsConserved(env: Env, config: Config, capacity: nat, acts: seq<Action>)
    ensures var y := Acts(env, capacity, EventQueue.Start(env, config), acts);
            y.next == FreedCount(y.flow.notes) + FreedCount(y.freed) + QueuedCount(y.queue)
                      + (if y.flow.pending.Some? then 1 else 0)
                      + |Forgotten(env, capacity, EventQueue.Start(env, config), acts)|
  {
    hide Acts, Forgotten;
    var y := Acts(env, capacity, EventQueue.Start(env, config), acts);
    var forgotten := Forgotten(env, capacity, EventQueue.Start(env, config), acts);
    CountBelow(env, config, capacity, acts, y.next);
    forall b: nat | y.next <= b
      ensures Frees(y.flow.notes, b) == 0 && Frees(y.freed, b) == 0 && Queued(y.queue, b) == 0
      ensures Held(y.flow, b) == 0 && b !in forgotten
    {
      MemoryConserved(env, config, capacity, acts, b);
      LeaksExactly(env, config, capacity, acts, b);
    }
    FreedAll(y.flow.notes, y.next);
    FreedAll(y.freed, y.next);
    QueuedAll(y.queue, y.next);
    assert y.flow.pending.Some? ==> Held(y.flow, y.flow.pending.value.tag) == 1;
    assert ForgottenBelow(forgotten, y.next) == forgotten;
  }
}

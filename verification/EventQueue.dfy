/** The bounded event queue of sidewalk.c and the memory that travels through it.

    Producers post events with heap contexts; the consumer thread takes them one at a time
    and runs the handler.  The flow-send context is freed by the flow, every other context
    by the loop after the handler, and a context that does not fit by its producer, unless the
    producer ignores what the queue answers.  The timeout work posts its event the same way. */
module EventQueue {
  import opened Links
  import opened FlowModel

  /** A queued event and the heap block of its context, if it has one. */
  datatype Item = Item(event: Event, block: Option<nat>)

  /** `freed` and `leaked` list the blocks freed outside the flow, and those nobody owns any
      more; `posted` lists the events accepted and `done` those handled so far, with the runs of
      the timeout work among them.  `missed` says that a timeout met a full queue, and that the
      wait it should have ended has been unwatched ever since. */
  datatype System = System(
    flow: Flow, queue: seq<Item>, next: nat, freed: Log<Note>, leaked: Log<Note>,
    posted: seq<Event>, done: seq<Event>, missed: bool)

  datatype Action =
    | Post(event: Event, memory: bool)   // memory: the allocations of the context succeed
    | Dispatch
    | Expire                             // the timeout work comes due, if it is scheduled

  predicate HasContext(e: Event) {
    || e.EvSet? || e.EvSend? || e.EvStatus? || e.EvResult? || e.EvForeign? || e.EvInit? || e.EvStartStop?
    || e.EvTask?
  }

  /** The producers that ignore the answer of the queue: the status callback, and the commands and
      timers of the bulk transfer. */
  predicate Careless(e: Event) {
    e.EvStatus? || (e.EvTask? && !e.task.Guarded?)
  }

  /** A cancel command with bad arguments returns with its context allocated. */
  predicate Abandons(e: Event) {
    e == EvTask(CancelTransfer(false))
  }

  /** A flow-send context is named by its block. */
  function Named(e: Event, block: nat): Event {
    if e.EvSend? then EvSend(e.req.(tag := block)) else e
  }

  /** `dut_flow_submit_tx_result` drops results that nothing waits for, and only the timeout work
      posts a timeout. */
  predicate Wanted(s: Flow, e: Event) {
    && (e.EvResult? || e.EvForeign? ==> s.mode && s.pending.Some? && s.inflight)
    && !e.EvTimeout? && !e.EvExpire?
  }

  /** Post an event; a status is posted even when its copy could not be allocated. */
  function PostEvent(capacity: nat, y: System, e: Event, memory: bool): System {
    if !Wanted(y.flow, e) then y
    else if HasContext(e) && !memory then
      if e.EvStatus? then Enqueue(capacity, y, EvIdle) else y
    else if Abandons(e) then Forget(y)
    else Enqueue(capacity, y, e)
  }

  /** A context that nobody owns any more. */
  function Forget(y: System): System {
    y.(next := y.next + 1, leaked := After(y.leaked, Freed(y.next)))
  }

  function Enqueue(capacity: nat, y: System, e: Event): System {
    if |y.queue| < capacity then Append(y, ItemOf(y, e))
    else if !HasContext(e) then y
    else if Careless(e) then Forget(y)
    else y.(next := y.next + 1, freed := After(y.freed, Freed(y.next)))
  }

  function ItemOf(y: System, e: Event): Item {
    Item(Named(e, y.next), if HasContext(e) then Some(y.next) else None)
  }

  function Append(y: System, i: Item): System {
    y.(next := if i.block.Some? then y.next + 1 else y.next,
       queue := y.queue + [i], posted := y.posted + [i.event])
  }

  predicate LoopFrees(i: Item) {
    i.block.Some? && !i.event.EvSend?
  }

  function DispatchOne(env: Env, y: System): System {
    if y.queue == [] then y
    else
      var head := y.queue[0];
      var flow := Step(env, y.flow, head.event);
      y.(queue := y.queue[1..], flow := flow, done := y.done + [head.event],
         freed := if LoopFrees(head) then After(y.freed, Freed(head.block.value)) else y.freed,
         missed := y.missed && Unwatched(flow))
  }

  /** `dut_flow_timeout_work_handler`: a timeout that does not fit into the queue is lost. */
  function ExpireOne(env: Env, capacity: nat, y: System): System {
    if !y.flow.timer then y
    else
      var ran := y.(flow := Step(env, y.flow, EvExpire), done := y.done + [EvExpire]);
      Enqueue(capacity, ran, EvTimeout).(missed := y.missed || |y.queue| >= capacity)
  }

  function Act(env: Env, capacity: nat, y: System, a: Action): System {
    match a
    case Post(e, memory) => PostEvent(capacity, y, e, memory)
    case Dispatch => DispatchOne(env, y)
    case Expire => ExpireOne(env, capacity, y)
  }

  function Acts(env: Env, capacity: nat, y: System, acts: seq<Action>): System
    decreases |acts|
  {
    if acts == [] then y else Acts(env, capacity, Act(env, capacity, y, acts[0]), acts[1..])
  }

  function Start(env: Env, config: Config): System {
    System(Boot(env, config), [], 0, Nil, Nil, [], [], false)
  }

  lemma {:induction false} ActsAppend(env: Env, capacity: nat, y: System, acts: seq<Action>, a: Action)
    ensures Acts(env, capacity, y, acts + [a]) == Act(env, capacity, Acts(env, capacity, y, acts), a)
    decreases |acts|
  {
    hide Act;
    if acts == [] {
      assert acts + [a] == [a];
      assert [a][1..] == [];
    } else {
      assert (acts + [a])[1..] == acts[1..] + [a];
      ActsAppend(env, capacity, Act(env, capacity, y, acts[0]), acts[1..], a);
    }
  }
}

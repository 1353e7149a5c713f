/** The timeouts of the system: in every run a wait has nothing to end it exactly after a timeout that
    met a full queue, and a run where that happens. */
module QueueTimeouts {
  import opened Links
  import opened FlowModel
  import opened FlowInvariant
  import opened FlowDelivery
  import opened FlowRuns
  import opened FlowTimer
  import opened FlowWitness
  import opened EventQueue
  import opened QueueRuns

  /** A missed timeout leaves its wait unwatched, and a wait is unwatched only after a missed timeout
      or while its timeout is queued. */
  ghost predicate Watching(y: System) {
    && TimerShape(y.flow)
    && (y.missed ==> Unwatched(y.flow))
    && (Unwatched(y.flow) ==> y.missed || EvTimeout in Events(y.queue))
  }

  lemma EnqueueWatching(capacity: nat, y: System, e: Event)
    requires Watching(y)
    ensures Watching(Enqueue(capacity, y, e))
  {
    QueueAppend(y.queue, ItemOf(y, e), 0);
  }

  lemma DispatchWatching(env: Env, y: System)
    requires Shape(y.flow) && Watching(y) && (y.queue != [] ==> !y.queue[0].event.EvExpire?)
    ensures Watching(DispatchOne(env, y))
  {
    hide Step;
    if y.queue != [] {
      StepTended(env, y.flow, y.queue[0].event);
    }
  }

  lemma ExpireWatching(env: Env, capacity: nat, y: System)
    requires Watching(y)
    ensures Watching(ExpireOne(env, capacity, y))
  {
    QueueAppend(y.queue, Item(EvTimeout, None), 0);
  }

  lemma ActWatching(env: Env, capacity: nat, y: System, a: Action)
    requires Shape(y.flow) && Watching(y) && (forall i :: 0 <= i < |y.queue| ==> SendNamed(y.queue[i]))
    ensures Watching(Act(env, capacity, y, a))
  {
    hide Watching, Enqueue, ExpireOne, DispatchOne, Wanted;
    match a {
      case Post(e, memory) =>
        EnqueueWatching(capacity, y, e);
        EnqueueWatching(capacity, y, EvIdle);
        ForgetWatching(y);
      case Dispatch =>
        if y.queue != [] {
          assert SendNamed(y.queue[0]);
        }
        DispatchWatching(env, y);
      case Expire => ExpireWatching(env, capacity, y);
    }
  }

  lemma ForgetWatching(y: System)
    requires Watching(y)
    ensures Watching(Forget(y))
  {
  }

  lemma BootWatching(env: Env, config: Config)
    ensures Watching(EventQueue.Start(env, config))
  {
  }

  lemma {:induction false} ActsWatching(env: Env, config: Config, capacity: nat, y: System, acts: seq<Action>)
    requires SourceLimits(env) && Sound(env, config, y, 0) && Watching(y)
    ensures Watching(Acts(env, capacity, y, acts))
    decreases |acts|
  {
    hide Act, Watching, Run, Places;
    if acts != [] {
      ReachableShape(env, config, y.done);
      ActWatching(env, capacity, y, acts[0]);
      ActSound(env, config, capacity, y, acts[0], 0);
      ActsWatching(env, config, capacity, Act(env, capacity, y, acts[0]), acts[1..]);
    }
  }

  /** In every run a wait stage has its work scheduled or its timeout queued, exactly unless a timeout
      met a full queue and the wait was not ended or started again since. */
  lemma WaitWatched(env: Env, config: Config, capacity: nat, acts: seq<Action>)
    requires SourceLimits(env)
    ensures var y := Acts(env, capacity, EventQueue.Start(env, config), acts);
            && ((Unwatched(y.flow) <==> y.missed) || EvTimeout in Events(y.queue))
            && (y.missed ==> Unwatched(y.flow))
            && TimerShape(y.flow)
  {
    hide Acts, Sound, EventQueue.Start, Events;
    BootSound(env, config, 0);
    BootWatching(env, config);
    ActsWatching(env, config, capacity, EventQueue.Start(env, config), acts);
  }

  /** A pending message that nothing stranded is in flight, or its wait will end, unless a timeout
      was missed. */
  lemma PendingWatched(env: Env, config: Config, capacity: nat, acts: seq<Action>)
    requires SourceLimits(env)
    ensures var y := Acts(env, capacity, EventQueue.Start(env, config), acts);
            StrandFree(env, Boot(env, config), y.done) && y.flow.pending.Some? && !y.missed ==>
              y.flow.inflight || y.flow.timer || EvTimeout in Events(y.queue)
  {
    hide Acts, Run, Strands;
    var y := Acts(env, capacity, EventQueue.Start(env, config), acts);
    StartSound(env, config, capacity, acts, 0);
    WaitWatched(env, config, capacity, acts);
    if StrandFree(env, Boot(env, config), y.done) {
      NeverStranded(env, config, y.done);
    }
  }

  // ---------------------------------------------------------------- a missed timeout

  lemma ActsThree(env: Env, capacity: nat, y: System, a: Action, b: Action, c: Action)
    ensures Acts(env, capacity, y, [a, b, c]) ==
              Act(env, capacity, Act(env, capacity, Act(env, capacity, y, a), b), c)
  {
    hide Act;
    ActsAppend(env, capacity, y, [], a);
    ActsAppend(env, capacity, y, [a], b);
    ActsAppend(env, capacity, y, [a, b], c);
    assert [] + [a] == [a] && [a] + [b] == [a, b] && [a, b] + [c] == [a, b, c];
  }

  lemma {:induction false} ActsConcat(env: Env, capacity: nat, y: System, xs: seq<Action>, ys: seq<Action>)
    ensures Acts(env, capacity, y, xs + ys) == Acts(env, capacity, Acts(env, capacity, y, xs), ys)
    decreases |xs|
  {
    hide Act;
    if xs == [] {
      assert xs + ys == ys;
    } else {
      assert (xs + ys)[1..] == xs[1..] + ys;
      ActsConcat(env, capacity, Act(env, capacity, y, xs[0]), xs[1..], ys);
    }
  }

  /** A work that comes due while some event fills the queue. */
  lemma MissedWhenFull(env: Env, y: System)
    requires y.queue == [] && y.flow.timer && !y.flow.stage.Idle?
    ensures var z := Acts(env, 1, y, [Post(EvIdle, true), Expire, Dispatch]);
            z.missed && z.queue == [] && z.flow == y.flow.(timer := false)
  {
    hide Acts;
    ActsThree(env, 1, y, Post(EvIdle, true), Expire, Dispatch);
    var full := Act(env, 1, y, Post(EvIdle, true));
    assert full.queue == [Item(EvIdle, None)] && full.flow == y.flow;
    var late := Act(env, 1, full, Expire);
    assert late.queue == full.queue && late.missed && late.flow == y.flow.(timer := false);
  }

  lemma SendDispatched(env: Env, config: Config)
    ensures var e := Scripted(env, 100, 1);
            var req := StrictOnly(Fsk, Notify, 1);
            var y := Acts(e, 1, EventQueue.Start(e, config), [Post(EvSend(req), true), Dispatch]);
            y.queue == [] && y.flow == Opened(env, config, req, Fsk)
  {
    hide FlowSend;
    var e := Scripted(env, 100, 1);
    var req := StrictOnly(Fsk, Notify, 1);
    SendOpens(env, config, req, Fsk, 100, 1);
    ActsAppend(e, 1, EventQueue.Start(e, config), [], Post(EvSend(req), true));
    ActsAppend(e, 1, EventQueue.Start(e, config), [Post(EvSend(req), true)], Dispatch);
    assert [] + [Post(EvSend(req), true)] == [Post(EvSend(req), true)];
    assert [Post(EvSend(req), true)] + [Dispatch] == [Post(EvSend(req), true), Dispatch];
    assert Boot(e, config) == Boot(env, config);
    assert Named(EvSend(req), 0) == EvSend(req);
  }

  /** A timeout that meets a full queue leaves a covered message waiting with nothing to end the
      wait, here on a queue of one place. */
  lemma TimeoutIsMissed(env: Env, config: Config)
    ensures var e := Scripted(env, 100, 1);
            var y := Acts(e, 1, EventQueue.Start(e, config),
                          [Post(EvSend(StrictOnly(Fsk, Notify, 1)), true), Dispatch]
                          + [Post(EvIdle, true), Expire, Dispatch]);
            && y.missed && y.queue == [] && Unwatched(y.flow)
            && Covered(y.flow) && y.flow.pending.Some? && !y.flow.inflight
  {
    hide Acts;
    var e := Scripted(env, 100, 1);
    var sent := [Post(EvSend(StrictOnly(Fsk, Notify, 1)), true), Dispatch];
    SendDispatched(env, config);
    MissedWhenFull(e, Acts(e, 1, EventQueue.Start(e, config), sent));
    ActsConcat(e, 1, EventQueue.Start(e, config), sent, [Post(EvIdle, true), Expire, Dispatch]);
  }
}

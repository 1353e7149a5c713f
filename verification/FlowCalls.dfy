/** What the flow asks of the stack, handler by handler: which links it stops and starts, in which
    order, which message it puts next, and what it waits for afterwards. */
module FlowCalls {
  import opened Links
  import opened FlowModel
  import opened FlowInvariant
  import opened FlowDelivery

  // ---------------------------------------------------------------- reading the log on from a point

  ghost predicate Begins(calls: Log<Call>, prefix: Log<Call>) {
    calls == prefix || (calls.After? && Begins(calls.before, prefix))
  }

  /** The first call after the prefix. */
  ghost function NextCall(calls: Log<Call>, prefix: Log<Call>): Option<Call>
    requires Begins(calls, prefix)
  {
    if calls == prefix then None
    else if calls.before == prefix then Some(calls.last)
    else NextCall(calls.before, prefix)
  }

  lemma {:induction false} BeginsTrans(a: Log<Call>, b: Log<Call>, c: Log<Call>)
    requires Begins(a, b) && Begins(b, c)
    ensures Begins(a, c)
  {
    if a != b {
      BeginsTrans(a.before, b, c);
    }
  }

  lemma {:induction false} NextStays(calls: Log<Call>, prefix: Log<Call>, call: Call)
    requires Begins(calls, After(prefix, call))
    ensures Begins(calls, prefix) && NextCall(calls, prefix) == Some(call)
  {
    if calls == After(prefix, call) {
      assert Begins(calls.before, prefix);
      Longer(calls, prefix);
    } else {
      NextStays(calls.before, prefix, call);
      Longer(calls, prefix);
      Longer(calls.before, prefix);
    }
  }

  ghost function Length(calls: Log<Call>): nat {
    match calls case Nil => 0 case After(before, _) => Length(before) + 1
  }

  lemma {:induction false} Longer(calls: Log<Call>, prefix: Log<Call>)
    requires Begins(calls, prefix)
    ensures Length(prefix) <= Length(calls) && (Length(prefix) == Length(calls) ==> calls == prefix)
  {
    if calls != prefix {
      Longer(calls.before, prefix);
    }
  }

  // ---------------------------------------------------------------- transitions

  predicate Grants(env: Env, n: nat) {
    env.answer(n).err.NoError?
  }

  /** Where the flow takes itself to be: the LoRa, FSK or BLE link in this order if the status reports
      one, else the configured one, else the one it started last. */
  lemma SeenExactly(s: Flow)
    ensures var seen, up := Sync(s).current, s.status.up;
            && (up.lora ==> seen == Some(Lora))
            && (up.fsk && !up.lora ==> seen == Some(Fsk))
            && (up.ble && !up.fsk && !up.lora ==> seen == Some(Ble))
            && (up == NO_LINKS ==> seen == if s.config.TargetMask? then Some(s.config.link) else s.current)
  {
  }

  /** The stop and the start that lead to goal: none from goal itself, the start only after a stop
      that was granted. */
  ghost function MoveLog(env: Env, s: Flow, goal: Link): Log<Call> {
    if Sync(s).current == Some(goal) then s.calls else RestartLog(env, s, goal)
  }

  ghost function RestartLog(env: Env, s: Flow, goal: Link): Log<Call> {
    match Sync(s).current
    case None => After(s.calls, Start(goal, Grants(env, s.count)))
    case Some(l) =>
      var stopped := After(s.calls, Stop(l, Grants(env, s.count)));
      if !Grants(env, s.count) then stopped else After(stopped, Start(goal, Grants(env, s.count + 1)))
  }

  /** The calls after a granted start, number n: the two options of the automatic BLE connection for a
      target with the BLE bit, once per session, the second only after the first; and for BLE the
      connection request. */
  ghost function SetupLog(env: Env, s: Flow, goal: Link, started: Log<Call>, n: nat): Log<Call> {
    var asked := After(started, SetPolicy);
    var options := if goal.Fsk? || s.policy || !env.autoConnect then started
                   else if Grants(env, n + 1) then After(asked, SetParams)
                   else asked;
    if goal.Ble? && s.handle then After(options, Connect) else options
  }

  lemma StopCalls(env: Env, s: Flow)
    requires Sync(s).current.Some?
    ensures var r := StopCurrent(env, Sync(s));
            && r.err == env.answer(s.count).err
            && r.flow == Sync(s).(count := s.count + 1,
                                  calls := After(s.calls, Stop(Sync(s).current.value, Grants(env, s.count))),
                                  current := if Grants(env, s.count) then None else Sync(s).current)
  {
    var synced := Sync(s);
    var first := SidStop(env, synced, synced.current.value);
    assert RetryStop(env, first) == first;
  }

  lemma PolicyCalls(env: Env, s: Flow)
    ensures var t := ConfigurePolicy(env, s);
            var asked := After(s.calls, SetPolicy);
            && t.calls == (if !env.autoConnect then s.calls
                           else if Grants(env, s.count) then After(asked, SetParams)
                           else asked)
            && t.policy == (env.autoConnect && Grants(env, s.count) && Grants(env, s.count + 1))
            && t.current == s.current && t.config == s.config
  {
  }

  lemma SetupCalls(env: Env, s: Flow, goal: Link)
    ensures var t := LinkStarted(env, s.(count := s.count + 1), goal);
            && t.calls == SetupLog(env, s, goal, s.calls, s.count)
            && t.current == Some(goal) && t.config == TargetMask(goal)
            && t.policy == (if goal.Fsk? || s.policy then s.policy
                            else env.autoConnect && Grants(env, s.count + 1) && Grants(env, s.count + 2))
  {
    hide ConfigurePolicy;
    PolicyCalls(env, s.(count := s.count + 1, config := TargetMask(goal)));
  }

  lemma StartCalls(env: Env, s: Flow, goal: Link)
    ensures var r := StartTarget(env, s, goal);
            && r.err == env.answer(s.count).err
            && r.flow.calls == (if Grants(env, s.count) then
                                  SetupLog(env, s, goal, After(s.calls, Start(goal, true)), s.count)
                                else After(s.calls, Start(goal, false)))
            && (Grants(env, s.count) ==>
                  && r.flow.current == Some(goal) && r.flow.config == TargetMask(goal)
                  && r.flow.policy == (if goal.Fsk? || s.policy then s.policy
                                       else env.autoConnect && Grants(env, s.count + 1) && Grants(env, s.count + 2)))
  {
    hide LinkStarted, SetupLog;
    var started := s.(calls := After(s.calls, Start(goal, true)));
    SetupCalls(env, started, goal);
    SetupAlike(env, s, started, goal, started.calls, s.count);
  }

  /** A restart, forced or to another link. */
  lemma RestartCalls(env: Env, s: Flow, goal: Link, force: bool)
    requires force || Sync(s).current != Some(goal)
    ensures var r := Transition(env, s, goal, force);
            var n := s.count + if Sync(s).current.Some? then 1 else 0;
            var granted := (Sync(s).current.Some? ==> Grants(env, s.count)) && Grants(env, n);
            && (r.err.NoError? <==> granted)
            && r.flow.calls == (if granted then SetupLog(env, s, goal, RestartLog(env, s, goal), n)
                                else RestartLog(env, s, goal))
            && (granted ==> r.flow.current == Some(goal) && r.flow.config == TargetMask(goal))
            && (granted ==>
                  r.flow.policy == (if goal.Fsk? || s.policy then s.policy
                                    else env.autoConnect && Grants(env, n + 1) && Grants(env, n + 2)))
  {
    hide Observed, StopCurrent, StartTarget, SetupLog, LinkStarted;
    var synced := Sync(s);
    if synced.current.Some? {
      StopCalls(env, s);
      SetupAlike(env, s, StopCurrent(env, synced).flow, goal, RestartLog(env, s, goal), s.count + 1);
    } else {
      assert StopCurrent(env, synced) == Outcome(synced, NoError) by { StopNothing(env, synced); }
      SetupAlike(env, s, synced, goal, RestartLog(env, s, goal), s.count);
    }
    StartCalls(env, StopCurrent(env, synced).flow, goal);
  }

  lemma StopNothing(env: Env, s: Flow)
    requires s.current.None?
    ensures StopCurrent(env, s) == Outcome(s, NoError)
  {
  }

  lemma SetupAlike(env: Env, s: Flow, t: Flow, goal: Link, started: Log<Call>, n: nat)
    requires t.policy == s.policy && t.handle == s.handle
    ensures SetupLog(env, t, goal, started, n) == SetupLog(env, s, goal, started, n)
  {
  }

  /** From the link itself nothing is stopped or started. */
  lemma StayCalls(env: Env, s: Flow, goal: Link)
    requires Sync(s).current == Some(goal)
    ensures var r := Transition(env, s, goal, false);
            && r.err.NoError? && r.flow.current == Some(goal) && r.flow.config == TargetMask(goal)
            && r.flow.calls == (if goal.Ble? && s.handle then After(s.calls, Connect) else s.calls)
  {
  }

  lemma SetupBegins(env: Env, s: Flow, goal: Link, started: Log<Call>, n: nat)
    ensures Begins(SetupLog(env, s, goal, started, n), started)
  {
    var asked := After(started, SetPolicy);
    assert Begins(started, started);
    assert Begins(asked, started) && Begins(After(asked, SetParams), started);
  }

  lemma TransitionBegins(env: Env, s: Flow, goal: Link, force: bool)
    ensures Begins(Transition(env, s, goal, force).flow.calls,
                   if force then RestartLog(env, s, goal) else MoveLog(env, s, goal))
    ensures Begins(Transition(env, s, goal, force).flow.calls, s.calls)
  {
    hide Transition, SetupLog;
    if !force && Sync(s).current == Some(goal) {
      StayCalls(env, s, goal);
      assert Begins(s.calls, s.calls);
    } else {
      RestartCalls(env, s, goal, force);
      var log := RestartLog(env, s, goal);
      SetupBegins(env, s, goal, log, s.count + if Sync(s).current.Some? then 1 else 0);
      RestartBegins(env, s, goal);
      BeginsTrans(Transition(env, s, goal, force).flow.calls, log, s.calls);
    }
  }

  lemma RestartBegins(env: Env, s: Flow, goal: Link)
    ensures Begins(RestartLog(env, s, goal), s.calls) && Begins(RestartLog(env, s, goal), RestartLog(env, s, goal))
  {
    hide Sync;
    assert Begins(s.calls, s.calls);
    if Sync(s).current.Some? {
      assert Begins(After(s.calls, Stop(Sync(s).current.value, Grants(env, s.count))), s.calls);
    }
  }

  // ---------------------------------------------------------------- the recursion only appends

  lemma TryBegins(env: Env, s: Flow)
    ensures Begins(TryPending(env, s).calls, s.calls)
    decreases Untried(s), 3
  {
    hide SelectFallback;
    if Sendable(s) && s.handle {
      var put := SidPut(env, s).flow;
      assert Begins(s.calls, s.calls) && Begins(put.calls, s.calls);
      FallbackBegins(env, put);
      BeginsTrans(SelectFallback(env, put).flow.calls, put.calls, s.calls);
    }
  }

  lemma FallbackBegins(env: Env, s: Flow)
    ensures Begins(SelectFallback(env, s).flow.calls, s.calls)
    decreases Untried(s), 2
  {
    if s.pending.Some? && s.pending.value.allow {
      var marked := MarkAttempt(s);
      var c := Candidate(s.status.up, s.time, marked.pending.value.tried);
      if c.Some? {
        assert Untried(SwitchTo(marked, c.value)) < Untried(marked) <= Untried(s);
        ReachBegins(env, SwitchTo(marked, c.value), c.value);
      }
      hide ReachTarget;
    }
  }

  /** The first calls on the way to a link are the stop and the start that lead to it, or to FSK for a
      LoRa target before the time is known. */
  lemma ReachBegins(env: Env, s: Flow, l: Link)
    ensures Begins(ReachTarget(env, s, l).flow.calls, MoveLog(env, s, FirstStop(l, s.time)))
    ensures Begins(ReachTarget(env, s, l).flow.calls, s.calls)
    decreases Untried(s), 5
  {
    hide GoTo, Bootstrap;
    var aimed := Sync(s).(target := Some(l));
    assert Sync(aimed).current == Sync(s).current by { SyncAlike(Sync(s), aimed); }
    MoveAlike(env, s, aimed, FirstStop(l, s.time));
    if l.Lora? && !s.time {
      BootstrapBegins(env, aimed);
    } else {
      GoToBegins(env, aimed, l);
    }
  }

  lemma MoveAlike(env: Env, s: Flow, t: Flow, goal: Link)
    requires Sync(t).current == Sync(s).current && t.count == s.count && t.calls == s.calls
    ensures MoveLog(env, t, goal) == MoveLog(env, s, goal)
  {
    hide Sync;
  }

  lemma BootstrapBegins(env: Env, s: Flow)
    requires Sync(s).current == s.current
    ensures Begins(Bootstrap(env, s).flow.calls, MoveLog(env, s, Fsk))
    ensures Begins(Bootstrap(env, s).flow.calls, s.calls)
  {
    hide Transition;
    TransitionBegins(env, s, Fsk, false);
    hide Sync;
    assert Begins(s.calls, s.calls);
  }

  lemma GoToBegins(env: Env, s: Flow, l: Link)
    ensures Begins(GoTo(env, s, l).flow.calls, MoveLog(env, s, l))
    ensures Begins(GoTo(env, s, l).flow.calls, s.calls)
    decreases Untried(s), 4
  {
    hide TryPending, Transition, MoveLog;
    TransitionBegins(env, s, l, false);
    var moved := Transition(env, s, l, false).flow;
    TryBegins(env, CancelWait(moved));
    var tried := TryPending(env, CancelWait(moved)).calls;
    BeginsTrans(tried, moved.calls, MoveLog(env, s, l));
    BeginsTrans(tried, moved.calls, s.calls);
  }
}

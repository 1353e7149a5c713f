/** How far one handler can go: the mutual recursion of sending and falling back puts the pending
    message at most once for each link it has not tried, whatever the stack answers. */
module FlowRecursion {
  import opened Links
  import opened FlowModel
  import opened FlowInvariant

  /** All `sid_put_msg` calls so far. */
  ghost function Puts(calls: Log<Call>): nat {
    match calls
    case Nil => 0
    case After(before, last) => Puts(before) + if last.Put? then 1 else 0
  }

  // ---------------------------------------------------------------- transitions put nothing

  lemma StopPuts(env: Env, s: Flow)
    ensures Puts(StopCurrent(env, s).flow.calls) == Puts(s.calls)
  {
    hide Sync;
    if s.current.Some? {
      var first := SidStop(env, s, s.current.value);
      assert Puts(first.flow.calls) == Puts(s.calls);
      assert Puts(RetryStop(env, first).flow.calls) == Puts(first.flow.calls);
    }
  }

  lemma StartPuts(env: Env, s: Flow, target: Link)
    ensures Puts(StartTarget(env, s, target).flow.calls) == Puts(s.calls)
  {
    var started := SidStart(env, s, target).flow;
    assert Puts(started.calls) == Puts(s.calls);
    var configured := started.(config := TargetMask(target));
    PolicyPuts(env, configured);
    hide ConfigurePolicy;
  }

  lemma PolicyPuts(env: Env, s: Flow)
    ensures Puts(ConfigurePolicy(env, s).calls) == Puts(s.calls)
  {
    var first := Ask(env, s, SetPolicy).flow;
    assert Puts(first.calls) == Puts(s.calls);
    assert Puts(Ask(env, first, SetParams).flow.calls) == Puts(s.calls);
  }

  lemma TransitionPuts(env: Env, s: Flow, target: Link, force: bool)
    ensures Puts(Transition(env, s, target, force).flow.calls) == Puts(s.calls)
  {
    hide StopCurrent, StartTarget;
    var synced := Sync(s);
    StopPuts(env, synced);
    StartPuts(env, StopCurrent(env, synced).flow, target);
  }

  lemma BootstrapPuts(env: Env, s: Flow)
    ensures Puts(Bootstrap(env, s).flow.calls) == Puts(s.calls)
  {
    hide Transition;
    TransitionPuts(env, s, Fsk, false);
  }

  // ---------------------------------------------------------------- the recursion

  lemma TryPuts(env: Env, s: Flow)
    ensures Puts(TryPending(env, s).calls) <= Puts(s.calls) + 1 + Untried(s)
    ensures s.pending.Some? && !s.pending.value.allow ==> Puts(TryPending(env, s).calls) <= Puts(s.calls) + 1
    decreases Untried(s), 3
  {
    hide SelectFallback;
    if Sendable(s) && s.handle {
      var r := SidPut(env, s);
      if !r.err.NoError? {
        FallbackPuts(env, r.flow);
      }
    }
  }

  lemma FallbackPuts(env: Env, s: Flow)
    ensures Puts(SelectFallback(env, s).flow.calls) <= Puts(s.calls) + Untried(s)
    ensures s.pending.Some? && !s.pending.value.allow ==> SelectFallback(env, s) == Choice(s, false)
    decreases Untried(s), 2
  {
    if s.pending.Some? && s.pending.value.allow {
      var marked := MarkAttempt(s);
      var c := Candidate(s.status.up, s.time, marked.pending.value.tried);
      if c.Some? {
        var switched := SwitchTo(marked, c.value);
        assert Untried(switched) < Untried(marked) <= Untried(s);
        ReachPuts(env, switched, c.value);
      }
      hide ReachTarget;
    }
  }

  lemma ReachPuts(env: Env, s: Flow, target: Link)
    ensures Puts(ReachTarget(env, s, target).flow.calls) <= Puts(s.calls) + 1 + Untried(s)
    ensures s.pending.Some? && !s.pending.value.allow ==>
              Puts(ReachTarget(env, s, target).flow.calls) <= Puts(s.calls) + 1
    decreases Untried(s), 5
  {
    hide GoTo, Bootstrap;
    var aimed := Sync(s).(target := Some(target));
    BootstrapPuts(env, aimed);
    GoToPuts(env, aimed, target);
  }

  lemma GoToPuts(env: Env, s: Flow, target: Link)
    ensures Puts(GoTo(env, s, target).flow.calls) <= Puts(s.calls) + 1 + Untried(s)
    ensures s.pending.Some? && !s.pending.value.allow ==>
              Puts(GoTo(env, s, target).flow.calls) <= Puts(s.calls) + 1
    decreases Untried(s), 4
  {
    hide TryPending, Transition;
    TransitionPuts(env, s, target, false);
    TryPuts(env, CancelWait(Transition(env, s, target, false).flow));
  }

  // ---------------------------------------------------------------- one handler

  lemma PreparePuts(env: Env, s: Flow)
    ensures Puts(PrepareSession(env, s).flow.calls) == Puts(s.calls)
  {
    var closed := if s.handle && !s.mode then Ask(env, s, Deinit).flow.(handle := false) else s;
    assert Puts(closed.calls) == Puts(s.calls);
    var mfg := Ask(env, closed, CheckData);
    assert Puts(mfg.flow.calls) == Puts(s.calls);
  }

  /** From any reachable state, one event makes the flow put a message at most three times, and
      a strict message at most once. */
  lemma PutsPerEvent(env: Env, s: Flow, e: Event)
    requires Shape(s)
    ensures Puts(Step(env, s, e).calls) <= Puts(s.calls) + 3
    ensures (s.pending.Some? && !s.pending.value.allow && !e.EvSend?) ||
            (e.EvSend? && e.req.want.Some? && !e.req.allow) ==>
              Puts(Step(env, s, e).calls) <= Puts(s.calls) + 1
  {
    match e
    case EvSet(target) => SetPuts(env, s, target);
    case EvSwitch => SetPuts(env, Sync(s), SwitchTarget(s));
    case EvSend(req) => SendPuts(env, s, req);
    case EvStatus(st) => StatusPuts(env, s, st);
    case EvTimeout => TimeoutPuts(env, s);
    case EvResult(res) => ResultPuts(env, s, res);
    case _ => PlainPuts(env, s, e);
  }

  lemma PlainPuts(env: Env, s: Flow, e: Event)
    requires e.EvCancel? || e.EvReport? || e.EvInit? || e.EvDeinit? || e.EvStartStop? || e.EvForeign?
             || e.EvExpire? || e.EvTask? || e.EvIdle?
    ensures Puts(Step(env, s, e).calls) == Puts(s.calls)
  {
  }

  lemma SetPuts(env: Env, s: Flow, target: Link)
    requires s.pending.Some? ==> s.pending.value.tried.Size() > 0
    ensures Puts(FlowSet(env, s, target).calls) <= Puts(s.calls) + 3
    ensures s.pending.Some? && !s.pending.value.allow ==> Puts(FlowSet(env, s, target).calls) <= Puts(s.calls) + 1
  {
    hide ReachTarget, PrepareSession;
    PreparePuts(env, s);
    ReachPuts(env, NoteRetarget(PrepareSession(env, s).flow).(retries := NO_RETRIES), target);
  }

  lemma SendPuts(env: Env, s: Flow, req: Request)
    ensures Puts(FlowSend(env, s, req).calls) <= Puts(s.calls) + 3
    ensures req.want.Some? && !req.allow ==> Puts(FlowSend(env, s, req).calls) <= Puts(s.calls) + 1
  {
    hide PrepareSession, Submit;
    PreparePuts(env, s);
    SubmitPuts(env, Replace(PrepareSession(env, s).flow, req));
  }

  lemma SubmitPuts(env: Env, s: Flow)
    requires s.pending.Some? && s.pending.value.tried.Size() > 0
    ensures Puts(Submit(env, s).calls) <= Puts(s.calls) + 3
    ensures !s.pending.value.allow ==> Puts(Submit(env, s).calls) <= Puts(s.calls) + 1
  {
    hide TryPending, ReachTarget;
    TryPuts(env, s);
    ReachPuts(env, s.(retries := NO_RETRIES), s.pending.value.desc.link);
  }

  lemma StatusPuts(env: Env, s: Flow, st: Status)
    requires s.pending.Some? ==> s.pending.value.tried.Size() > 0
    ensures Puts(NewStatus(env, s, st).calls) <= Puts(s.calls) + 3
    ensures s.pending.Some? && !s.pending.value.allow ==> Puts(NewStatus(env, s, st).calls) <= Puts(s.calls) + 1
  {
    hide TryPending, Transition;
    var timed := CacheTime(Sync(s.(status := st)));
    TransitionPuts(env, CancelWait(timed), Lora, false);
    TryPuts(env, Arrive(LeaveFsk(env, timed)));
  }

  lemma TimeoutPuts(env: Env, s: Flow)
    requires Shape(s)
    ensures Puts(Timeout(env, s).calls) <= Puts(s.calls) + 3
    ensures s.pending.Some? && !s.pending.value.allow ==> Puts(Timeout(env, s).calls) <= Puts(s.calls) + 1
  {
    hide FallBackOrFail, Transition;
    if Fires(s) {
      var l := StageLink(s.stage);
      var noted := NoteTimeout(s);
      FallBackOrFailPuts(env, noted);
      var counted := noted.(retries := CountRetry(noted.retries, l));
      TransitionPuts(env, counted, l, true);
      FallBackOrFailPuts(env, Transition(env, counted, l, true).flow);
    }
  }

  lemma FallBackOrFailPuts(env: Env, s: Flow)
    ensures Puts(FallBackOrFail(env, s).calls) <= Puts(s.calls) + Untried(s)
    ensures s.pending.Some? && !s.pending.value.allow ==> Puts(FallBackOrFail(env, s).calls) == Puts(s.calls)
  {
    hide SelectFallback;
    FallbackPuts(env, s);
  }

  lemma ResultPuts(env: Env, s: Flow, res: Result)
    requires s.pending.Some? ==> s.pending.value.tried.Size() > 0
    ensures Puts(TxResult(env, s, res).calls) <= Puts(s.calls) + 3
    ensures s.pending.Some? && !s.pending.value.allow ==> Puts(TxResult(env, s, res).calls) <= Puts(s.calls) + 1
  {
    hide FallBackOrFail, TryPending, ReachTarget;
    if Matches(s, res) {
      var settled := Note1(s, Settle(s.pending.value.attempt)).(inflight := false);
      FallBackOrFailPuts(env, settled);
      var l := s.pending.value.desc.link;
      var again := settled.(retries := s.retries.(tx := s.retries.tx + 1), target := Some(l));
      TryPuts(env, again);
      ReachPuts(env, again, l);
    }
  }
}

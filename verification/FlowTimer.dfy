/** The timeout work behind a wait stage: which handlers schedule and cancel it, and that none
    leaves a wait stage without it. */
module FlowTimer {
  import opened Links
  import opened FlowModel
  import opened FlowInvariant

  /** The work is scheduled for a wait stage only. */
  ghost predicate TimerShape(s: Flow) {
    s.timer ==> !s.stage.Idle?
  }

  /** From s to t no wait stage lost its work. */
  ghost predicate Tended(s: Flow, t: Flow) {
    && (TimerShape(s) ==> TimerShape(t))
    && (Unwatched(t) ==> Unwatched(s))
  }

  // ---------------------------------------------------------------- the recursion

  lemma TryTended(env: Env, s: Flow)
    ensures Tended(s, TryPending(env, s))
    decreases Untried(s), 3
  {
    hide SelectFallback;
    if Sendable(s) && s.handle {
      FallbackTended(env, SidPut(env, s).flow);
    }
  }

  lemma FallbackTended(env: Env, s: Flow)
    ensures Tended(s, SelectFallback(env, s).flow)
    ensures SelectFallback(env, s).ok ==> !Unwatched(SelectFallback(env, s).flow)
    decreases Untried(s), 2
  {
    if s.pending.Some? && s.pending.value.allow {
      var marked := MarkAttempt(s);
      var c := Candidate(s.status.up, s.time, marked.pending.value.tried);
      if c.Some? {
        assert Untried(SwitchTo(marked, c.value)) < Untried(marked) <= Untried(s);
        ReachTended(env, SwitchTo(marked, c.value), c.value);
      }
      hide ReachTarget;
    }
  }

  lemma ReachTended(env: Env, s: Flow, target: Link)
    ensures Tended(s, ReachTarget(env, s, target).flow)
    ensures ReachTarget(env, s, target).err.NoError? ==> !Unwatched(ReachTarget(env, s, target).flow)
    decreases Untried(s), 5
  {
    hide GoTo, Bootstrap;
    var aimed := Sync(s).(target := Some(target));
    BootstrapTended(env, aimed);
    GoToTended(env, aimed, target);
  }

  lemma BootstrapTended(env: Env, s: Flow)
    ensures Tended(s, Bootstrap(env, s).flow)
    ensures Bootstrap(env, s).err.NoError? ==> !Unwatched(Bootstrap(env, s).flow)
  {
    hide Transition;
  }

  lemma GoToTended(env: Env, s: Flow, target: Link)
    ensures Tended(s, GoTo(env, s, target).flow)
    ensures GoTo(env, s, target).err.NoError? ==> !Unwatched(GoTo(env, s, target).flow)
    decreases Untried(s), 4
  {
    hide TryPending, Transition;
    TryTended(env, CancelWait(Transition(env, s, target, false).flow));
  }

  // ---------------------------------------------------------------- the handlers

  lemma FailTended(env: Env, s: Flow)
    ensures TimerShape(s) ==> TimerShape(FallBackOrFail(env, s))
    ensures !Unwatched(FallBackOrFail(env, s))
  {
    hide SelectFallback;
    FallbackTended(env, s);
  }

  /** Every timeout that fires ends the wait or starts another, with its work scheduled. */
  lemma TimeoutTended(env: Env, s: Flow)
    requires Shape(s)
    ensures TimerShape(s) ==> TimerShape(Timeout(env, s))
    ensures !Unwatched(Timeout(env, s))
  {
    hide FallBackOrFail, Transition;
    if Fires(s) {
      var noted := NoteTimeout(s);
      FailTended(env, noted);
      var l := StageLink(s.stage);
      FailTended(env, Transition(env, noted.(retries := CountRetry(noted.retries, l)), l, true).flow);
    }
  }

  lemma DiscardingTended(env: Env, s: Flow)
    requires s.pending.Some?
    ensures Tended(s, ReachDiscarding(env, s))
  {
    hide ReachTarget;
    ReachTended(env, s, s.pending.value.desc.link);
  }

  lemma ResultTended(env: Env, s: Flow, res: Result)
    ensures Tended(s, TxResult(env, s, res))
  {
    hide FallBackOrFail, TryPending, ReachDiscarding;
    if Matches(s, res) {
      var settled := Note1(s, Settle(s.pending.value.attempt)).(inflight := false);
      FailTended(env, settled);
      var again := settled.(retries := s.retries.(tx := s.retries.tx + 1), target := Some(s.pending.value.desc.link));
      TryTended(env, again);
      DiscardingTended(env, again);
    }
  }

  /** Opening a session resets the stage without cancelling the work: there is none. */
  lemma PrepareTended(env: Env, s: Flow)
    requires Shape(s) && TimerShape(s)
    ensures Tended(s, PrepareSession(env, s).flow)
  {
  }

  lemma SendTended(env: Env, s: Flow, req: Request)
    requires Shape(s) && TimerShape(s)
    ensures Tended(s, FlowSend(env, s, req))
  {
    hide PrepareSession, TryPending, ReachDiscarding;
    PrepareTended(env, s);
    var held := Replace(PrepareSession(env, s).flow, req);
    TryTended(env, held);
    DiscardingTended(env, held.(retries := NO_RETRIES));
  }

  lemma SetTended(env: Env, s: Flow, target: Link)
    requires Shape(s) && TimerShape(s)
    ensures Tended(s, FlowSet(env, s, target))
  {
    hide PrepareSession, ReachTarget;
    PrepareTended(env, s);
    ReachTended(env, NoteRetarget(PrepareSession(env, s).flow).(retries := NO_RETRIES), target);
  }

  lemma StatusTended(env: Env, s: Flow, st: Status)
    ensures Tended(s, NewStatus(env, s, st))
  {
    hide TryPending, Transition, Sync;
    var timed := CacheTime(Sync(s.(status := st)));
    TryTended(env, Arrive(LeaveFsk(env, timed)));
  }

  /** No handler leaves a wait stage without its work: only the work itself does, when it runs, and
      the timeout that it posts puts that right. */
  lemma StepTended(env: Env, s: Flow, e: Event)
    requires Shape(s) && TimerShape(s)
    ensures var t := Step(env, s, e);
            && TimerShape(t)
            && (Unwatched(t) ==> e.EvExpire? || (Unwatched(s) && !e.EvTimeout?))
  {
    hide FlowSet, FlowSend, TxResult, NewStatus, Timeout;
    match e
    case EvSet(target) => SetTended(env, s, target);
    case EvSwitch => SetTended(env, Sync(s), SwitchTarget(s));
    case EvSend(req) => SendTended(env, s, req);
    case EvStatus(st) => StatusTended(env, s, st);
    case EvTimeout => TimeoutTended(env, s);
    case EvResult(res) => ResultTended(env, s, res);
    case _ =>
  }
}

/** Every handler of the hello flow keeps the invariant, frees exactly what it should,
    and leaves a pending message covered except where it discards an error. */
module FlowSteps {
  import opened Links
  import opened FlowModel
  import opened FlowInvariant

  /** What a send event must satisfy for message tag: the tag is new, and strict if only says so. */
  ghost predicate Admits(s: Flow, e: Event, tag: nat, only: Option<Link>) {
    e.EvSend? && e.req.tag == tag ==>
      Accepts(s.calls, tag) == 0 && (only.Some? ==> e.req.want == only && !e.req.allow)
  }

  /** The step discarded an error of reach_target for the message now pending. */
  ghost predicate Discarded(s: Flow, t: Flow) {
    t.pending.Some? &&
    Discards(t.notes, t.pending.value.tag) > Discards(s.notes, t.pending.value.tag)
  }

  /** The pending message ends up covered, unless the error of reach_target was discarded
      and no wait was armed before. */
  ghost predicate CoveredUnlessDiscarded(s: Flow, t: Flow, stage: Stage) {
    && (Discarded(s, t) ==> t.stage == stage)
    && (Covered(t) <==> !(Discarded(s, t) && t.stage.Idle?))
  }

  // ---------------------------------------------------------------- the invariant

  lemma DropKeeps(s: Flow, tag: nat, only: Option<Link>)
    requires Tired(s, tag, only)
    ensures Good(FreePending(s).(inflight := false), tag, only)
  {
  }

  lemma FailKeeps(s: Flow, tag: nat, only: Option<Link>)
    requires Tired(s, tag, only)
    ensures Good(FailPending(s), tag, only)
  {
    DropKeeps(s, tag, only);
  }

  lemma ResetKeeps(env: Env, s: Flow, tag: nat, only: Option<Link>)
    requires Good(s, tag, only)
    ensures Good(Reset(env, s), tag, only)
  {
    DropKeeps(s, tag, only);
  }

  /** Where no flow session is open, the handle may appear or vanish and the logs may grow. */
  lemma ClosedKeeps(env: Env, s: Flow, call: Call, handle: bool, tag: nat, only: Option<Link>)
    requires Good(s, tag, only) && !s.mode
    requires !call.Put? && !call.Session? && !call.Synced? && !call.Start?
    ensures Good(Ask(env, s, call).flow.(handle := handle), tag, only)
  {
    AskKeeps(env, s, call, tag, only);
  }

  lemma OpenSessionKeeps(env: Env, s: Flow, tag: nat, only: Option<Link>)
    requires Good(s, tag, only) && !s.mode
    ensures var r := OpenSession(env, s);
            && Good(r.flow, tag, only)
            && Accepts(r.flow.calls, tag) == Accepts(s.calls, tag)
            && (r.err.NoError? ==> r.flow.mode)
            && !r.flow.inflight && r.flow.stage.Idle?
  {
    ClosedKeeps(env, s, Init, env.answer(s.count).handle, tag, only);
    NumberedMore(s.calls, s.count, s.count + 1);
    NoSettleAbove(s.notes, s.count, s.count + 1);
  }

  lemma PrepareKeeps(env: Env, s: Flow, tag: nat, only: Option<Link>)
    requires Good(s, tag, only)
    ensures var p := PrepareSession(env, s);
            && Good(p.flow, tag, only)
            && Accepts(p.flow.calls, tag) == Accepts(s.calls, tag)
            && (p.err.NoError? ==> p.flow.mode)
            && (s.mode ==> p == Outcome(s, NoError))
            && (!s.mode ==> !p.flow.inflight && p.flow.stage.Idle?)
  {
    if !s.mode {
      ClosedKeeps(env, s, Deinit, false, tag, only);
      var closed := if s.handle then Ask(env, s, Deinit).flow.(handle := false) else s;
      ClosedKeeps(env, closed, CheckData, false, tag, only);
      var mfg := Ask(env, closed, CheckData);
      var ready := mfg.flow.(config := OtherMask,
                             status := Status(env.zeroReady, env.zeroSynced, NO_LINKS));
      AlikeKeeps(mfg.flow, ready, tag, only);
      OpenSessionKeeps(env, ready, tag, only);
    }
  }

  lemma SetKeeps(env: Env, s: Flow, target: Link, tag: nat, only: Option<Link>)
    requires Good(s, tag, only)
    ensures Good(FlowSet(env, s, target), tag, only)
  {
    PrepareKeeps(env, s, tag, only);
    var p := PrepareSession(env, s);
    if p.err.NoError? {
      AimKeeps(env, p.flow, target, tag, only);
    }
  }

  lemma AimKeeps(env: Env, s: Flow, target: Link, tag: nat, only: Option<Link>)
    requires Good(s, tag, only) && s.mode
    ensures Good(AimAt(env, s, target), tag, only)
  {
    var reset := NoteRetarget(s).(retries := NO_RETRIES);
    assert Good(reset, tag, only);
    ReachTargetKeeps(env, reset, target, tag, only);
    SyncKeeps(ReachTarget(env, reset, target).flow, tag, only);
  }

  lemma ReplaceKeeps(s: Flow, req: Request, tag: nat, only: Option<Link>)
    requires Good(s, tag, only) && s.mode && Admits(s, EvSend(req), tag, only)
    ensures var t := Replace(s, req);
            Good(t, tag, only) && (Holds(t, tag) ==> Accepts(t.calls, tag) == 0)
  {
    DropKeeps(s, tag, only);
  }

  lemma DiscardKeeps(s: Flow, m: nat, tag: nat, only: Option<Link>)
    requires Good(s, tag, only)
    ensures Good(Note1(s, Discard(m)), tag, only)
  {
  }

  lemma SendKeeps(env: Env, s: Flow, req: Request, tag: nat, only: Option<Link>)
    requires Good(s, tag, only) && Admits(s, EvSend(req), tag, only)
    ensures Good(FlowSend(env, s, req), tag, only)
    ensures CoveredUnlessDiscarded(s, FlowSend(env, s, req), if s.mode then s.stage else Idle)
  {
    hide Submit, PrepareSession;
    PrepareKeeps(env, s, tag, only);
    var p := PrepareSession(env, s);
    if p.err.NoError? {
      ReplaceKeeps(p.flow, req, tag, only);
      SubmitKeeps(env, Replace(p.flow, req), tag, only);
    }
  }

  lemma SubmitKeeps(env: Env, s: Flow, tag: nat, only: Option<Link>)
    requires Good(s, tag, only) && s.pending.Some? && !s.inflight
    requires Holds(s, tag) ==> Accepts(s.calls, tag) == 0
    ensures Good(Submit(env, s), tag, only)
    ensures CoveredUnlessDiscarded(s, Submit(env, s), s.stage)
  {
    TryPendingKeeps(env, s, tag, only);
    var waiting := s.(retries := NO_RETRIES);
    assert Good(waiting, tag, only);
    ReachDiscardingKeeps(env, waiting, tag, only);
    SyncKeeps(ReachDiscarding(env, waiting), tag, only);
  }

  lemma ReachDiscardingKeeps(env: Env, s: Flow, tag: nat, only: Option<Link>)
    requires Good(s, tag, only) && s.pending.Some? && !s.inflight
    ensures Good(ReachDiscarding(env, s), tag, only)
    ensures CoveredUnlessDiscarded(s, ReachDiscarding(env, s), s.stage)
  {
    var m := s.pending.value;
    ReachTargetKeeps(env, s, m.desc.link, tag, only);
    DiscardKeeps(ReachTarget(env, s, m.desc.link).flow, m.tag, tag, only);
  }

  lemma FallBackKeeps(env: Env, s: Flow, tag: nat, only: Option<Link>)
    requires Tired(s, tag, only)
    ensures Good(FallBackOrFail(env, s), tag, only)
    ensures Covered(FallBackOrFail(env, s))
  {
    SelectFallbackKeeps(env, s, tag, only);
    var f := SelectFallback(env, s);
    FailKeeps(f.flow, tag, only);
    SyncKeeps(if f.ok then f.flow else FailPending(f.flow), tag, only);
  }

  lemma TimeoutKeeps(env: Env, s: Flow, tag: nat, only: Option<Link>)
    requires Good(s, tag, only) && env.maxLora == 0
    ensures Good(Timeout(env, s), tag, only)
    ensures Covered(s) ==> Covered(Timeout(env, s))
    ensures !Discarded(s, Timeout(env, s))
  {
    hide FallBackOrFail, RetryStage;
    if s.mode && !s.stage.Idle? {
      var l := StageLink(s.stage);
      var noted := NoteTimeout(s);
      assert Good(noted, tag, only);
      if !RetriesLeft(env, s.retries, l) {
        FallBackKeeps(env, noted, tag, only);
      } else {
        RetryKeeps(env, noted, tag, only);
      }
    }
  }

  lemma RetryKeeps(env: Env, s: Flow, tag: nat, only: Option<Link>)
    requires Good(s, tag, only) && s.mode && !s.stage.Idle? && !s.stage.WaitLora?
    ensures Good(RetryStage(env, s), tag, only)
    ensures Covered(s) ==> Covered(RetryStage(env, s))
  {
    hide FallBackOrFail, Transition;
    var l := StageLink(s.stage);
    var counted := s.(retries := CountRetry(s.retries, l));
    assert Good(counted, tag, only);
    TransitionKeeps(env, counted, l, true, tag, only);
    var r := Transition(env, counted, l, true);
    AlikeKeeps(r.flow, Arm(r.flow, s.stage), tag, only);
    SyncKeeps(Arm(r.flow, s.stage), tag, only);
    FallBackKeeps(env, r.flow, tag, only);
  }

  /** A result settles the attempt in flight, which then no longer counts as unsettled. */
  lemma SettleKeeps(s: Flow, tag: nat, only: Option<Link>)
    requires Good(s, tag, only) && s.inflight
    ensures s.pending.value.attempt < s.count
    ensures Tired(Note1(s, Settle(s.pending.value.attempt)).(inflight := false), tag, only)
    ensures s.retries.tx < MAX_TX_RETRIES ==>
              Good(Note1(s, Settle(s.pending.value.attempt)).(inflight := false,
                     retries := s.retries.(tx := s.retries.tx + 1)), tag, only)
  {
    var m := s.pending.value;
    AcceptedBelow(s.calls, s.count, m.attempt, m.tag, m.desc);
  }

  lemma {:induction false} AcceptedBelow(calls: Log<Call>, n: nat, no: nat, tag: nat, d: Desc)
    requires NumberedBelow(calls, n) && Accepted(calls, no, tag, d)
    ensures no < n
  {
    if calls.last != Put(no, tag, d, true) {
      AcceptedBelow(calls.before, if calls.last.Put? then calls.last.no else n, no, tag, d);
    }
  }

  lemma ResultKeeps(env: Env, s: Flow, res: Result, tag: nat, only: Option<Link>)
    requires Good(s, tag, only)
    ensures Good(TxResult(env, s, res), tag, only)
    ensures Covered(s) ==> CoveredUnlessDiscarded(s, TxResult(env, s, res), s.stage)
  {
    if Matches(s, res) {
      var m := s.pending.value;
      SettleKeeps(s, tag, only);
      var settled := Note1(s, Settle(m.attempt)).(inflight := false);
      if res.success {
        DropKeeps(settled, tag, only);
      } else if s.retries.tx >= MAX_TX_RETRIES {
        FallBackKeeps(env, settled, tag, only);
      } else {
        RetrySendKeeps(env, settled, tag, only);
      }
    }
  }

  lemma RetrySendKeeps(env: Env, s: Flow, tag: nat, only: Option<Link>)
    requires s.pending.Some? && !s.inflight
    requires Good(s.(retries := s.retries.(tx := s.retries.tx + 1)), tag, only)
    ensures Good(RetrySend(env, s), tag, only)
    ensures CoveredUnlessDiscarded(s, RetrySend(env, s), s.stage)
  {
    hide TryPending, ReachDiscarding;
    var l := s.pending.value.desc.link;
    var again := s.(retries := s.retries.(tx := s.retries.tx + 1), target := Some(l));
    assert Good(again, tag, only);
    TryPendingKeeps(env, again, tag, only);
    SyncKeeps(TryPending(env, again), tag, only);
    ReachDiscardingKeeps(env, again, tag, only);
    SyncKeeps(ReachDiscarding(env, again), tag, only);
  }

  lemma StatusKeeps(env: Env, s: Flow, st: Status, tag: nat, only: Option<Link>)
    requires Good(s, tag, only)
    ensures Good(NewStatus(env, s, st), tag, only)
    ensures Covered(s) || (s.pending.Some? && LinkReady(st, s.pending.value.desc.link)) ==>
              Covered(NewStatus(env, s, st))
  {
    var stored := s.(status := st);
    AlikeKeeps(s, stored, tag, only);
    if s.mode {
      SyncKeeps(stored, tag, only);
      CacheTimeKeeps(Sync(stored), tag, only);
      var timed := CacheTime(Sync(stored));
      LeaveFskKeeps(env, timed, tag, only);
      ArriveKeeps(env, LeaveFsk(env, timed), tag, only);
    }
  }

  lemma CacheTimeKeeps(s: Flow, tag: nat, only: Option<Link>)
    requires Good(s, tag, only)
    ensures Good(CacheTime(s), tag, only) && (Covered(s) ==> Covered(CacheTime(s)))
  {
  }

  lemma ArriveKeeps(env: Env, s: Flow, tag: nat, only: Option<Link>)
    requires Good(s, tag, only)
    ensures Good(TryPending(env, Arrive(s)), tag, only)
    ensures Covered(s) || Sendable(s) ==> Covered(TryPending(env, Arrive(s)))
  {
    assert Good(Arrive(s), tag, only);
    TryPendingKeeps(env, Arrive(s), tag, only);
  }

  lemma LeaveFskKeeps(env: Env, s: Flow, tag: nat, only: Option<Link>)
    requires Good(s, tag, only) && s.mode
    ensures Good(LeaveFsk(env, s), tag, only)
    ensures Covered(s) ==> Covered(LeaveFsk(env, s))
  {
    if s.target == Some(Lora) && s.time {
      ArmKeeps(s, Lora, Idle, tag, only);
      var waiting := s.(target := Some(Lora), stage := Idle, timer := false);
      assert CancelWait(s) == waiting;
      TransitionKeeps(env, waiting, Lora, false, tag, only);
      var r := Transition(env, waiting, Lora, false);
      ArmKeeps(r.flow, Lora, if r.err.NoError? then WaitLora else WaitFsk, tag, only);
    }
  }

  lemma RawKeeps(env: Env, s: Flow, config: Config, tag: nat, only: Option<Link>)
    requires Good(s, tag, only)
    ensures Good(RawInit(env, s, config), tag, only)
    ensures Good(RawDeinit(env, s), tag, only)
    ensures Good(RawStartStop(env, s), tag, only)
  {
    ResetKeeps(env, s, tag, only);
    var blank := Reset(env, s);
    ClosedKeeps(env, blank, Raw, blank.handle, tag, only);
    ClosedKeeps(env, blank, CheckData, blank.handle, tag, only);
    var mfg := Ask(env, blank.(config := config), CheckData);
    AlikeKeeps(Ask(env, blank, CheckData).flow, mfg.flow, tag, only);
    var raw := RawInit(env, s, config);
    ClosedKeeps(env, mfg.flow, Init, raw.handle, tag, only);
    DeinitKeeps(env, s, tag, only);
  }

  lemma DeinitKeeps(env: Env, s: Flow, tag: nat, only: Option<Link>)
    requires Good(s, tag, only)
    ensures Good(RawDeinit(env, s), tag, only)
  {
    AskKeeps(env, s, Deinit, tag, only);
    ResetKeeps(env, Ask(env, s, Deinit).flow, tag, only);
    assert RawDeinit(env, s) == Reset(env, Ask(env, s, Deinit).flow).(handle := false);
  }

  lemma CancelKeeps(s: Flow, tag: nat, only: Option<Link>)
    requires Good(s, tag, only)
    ensures Good(FlowCancel(s), tag, only)
  {
    DropKeeps(s, tag, only);
    SyncKeeps(Release(CancelWait(FreePending(s).(inflight := false, target := None))), tag, only);
  }

  lemma StepKeeps(env: Env, s: Flow, e: Event, tag: nat, only: Option<Link>)
    requires Good(s, tag, only) && env.maxLora == 0 && Admits(s, e, tag, only)
    ensures Good(Step(env, s, e), tag, only)
  {
    match e
    case EvSet(target) => SetKeeps(env, s, target, tag, only);
    case EvSwitch =>
      SyncKeeps(s, tag, only);
      SetKeeps(env, Sync(s), SwitchTarget(s), tag, only);
    case EvSend(req) => SendKeeps(env, s, req, tag, only);
    case EvCancel => CancelKeeps(s, tag, only);
    case EvReport => SyncKeeps(s, tag, only);
    case EvStatus(st) => StatusKeeps(env, s, st, tag, only);
    case EvTimeout => TimeoutKeeps(env, s, tag, only);
    case EvResult(res) => ResultKeeps(env, s, res, tag, only);
    case EvInit(config) => RawKeeps(env, s, config, tag, only);
    case EvDeinit => DeinitKeeps(env, s, tag, only);
    case EvStartStop => RawKeeps(env, s, OtherMask, tag, only);
    case EvForeign =>
    case EvExpire => AlikeKeeps(s, s.(timer := false), tag, only);
    case EvTask(_) =>
    case EvIdle =>
  }
}

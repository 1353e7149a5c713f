/** What happens to one pending message: when it can be stranded, when it is dropped,
    and that its memory is freed exactly once. */
module FlowDelivery {
  import opened Links
  import opened FlowModel
  import opened FlowInvariant
  import opened FlowSteps

  // ---------------------------------------------------------------- stranded messages

  /** A set or switch that aims at a new target while a message is pending. */
  ghost predicate Retargeting(s: Flow, e: Event) {
    s.pending.Some? && (e.EvSet? || e.EvSwitch?)
  }

  /** A step that is no retarget strands a message only where it discards an error and no wait was
      armed before; and then it does. */
  lemma StepCovers(env: Env, s: Flow, e: Event, tag: nat)
    requires Good(s, tag, None) && env.maxLora == 0 && Admits(s, e, tag, None)
    requires Covered(s) && !Retargeting(s, e)
    ensures var t := Step(env, s, e);
            && (Covered(t) <==> !(Discarded(s, t) && t.stage.Idle?))
            && (Discarded(s, t) ==>
                  (e.EvSend? || e.EvResult?) && t.stage == if s.mode then s.stage else Idle)
  {
    match e
    case EvSend(req) => SendKeeps(env, s, req, tag, None);
    case EvResult(res) => ResultKeeps(env, s, res, tag, None);
    case EvStatus(st) => StatusKeeps(env, s, st, tag, None);
    case EvTimeout => TimeoutKeeps(env, s, tag, None);
    case _ =>
  }

  /** A stranded message is picked up again as soon as its link is reported ready. */
  lemma StrandedRecovers(env: Env, s: Flow, st: Status, tag: nat)
    requires Good(s, tag, None) && s.pending.Some?
    requires LinkReady(st, s.pending.value.desc.link)
    ensures Covered(NewStatus(env, s, st))
  {
    StatusKeeps(env, s, st, tag, None);
  }

  // ---------------------------------------------------------------- dropped messages

  /** The stop or the start that a transition to goal needs is refused. */
  ghost predicate LinkFails(env: Env, s: Flow, goal: Link) {
    var c := Sync(s).current;
    c != Some(goal) &&
    (!env.answer(s.count).err.NoError? || (c.Some? && !env.answer(s.count + 1).err.NoError?))
  }

  lemma SyncAlike(s: Flow, t: Flow)
    requires t.status == s.status && t.config == s.config && t.current == s.current
    ensures Sync(t).current == Sync(s).current
  {
    assert Observed(t) == Observed(s);
    hide Observed;
  }

  lemma LinkFailsAlike(env: Env, s: Flow, t: Flow, goal: Link)
    requires Sync(t).current == Sync(s).current && t.count == s.count
    ensures LinkFails(env, s, goal) <==> LinkFails(env, t, goal)
  {
    hide Sync;
  }

  lemma TransitionFails(env: Env, s: Flow, goal: Link)
    ensures Transition(env, s, goal, false).err.NoError? <==> !LinkFails(env, s, goal)
  {
    if Sync(s).current.Some? {
      StaleStopNeverRetried(env, s);
    }
  }

  /** No link is left to fall back to. */
  ghost predicate Exhausted(s: Flow)
    requires s.pending.Some?
  {
    var tried := s.pending.value.tried;
    tried.fsk && (s.status.up.ble ==> tried.ble) && (s.status.up.lora || s.time ==> tried.lora)
  }

  lemma ExhaustedExactly(s: Flow)
    requires s.pending.Some?
    ensures Exhausted(s) <==> Candidate(s.status.up, s.time, s.pending.value.tried).None?
  {
  }

  /** The link that has to be up first on the way to l. */
  function FirstStop(l: Link, time: bool): Link {
    if l.Lora? && !time then Fsk else l
  }

  lemma ReachFails(env: Env, s: Flow, l: Link)
    ensures ReachTarget(env, s, l).err.NoError? <==> !LinkFails(env, s, FirstStop(l, s.time))
  {
    hide GoTo, Bootstrap, LinkFails;
    var aimed := Sync(s).(target := Some(l));
    BootstrapFails(env, aimed);
    GoToFails(env, aimed, l);
    LinkFailsAlike(env, s, aimed, FirstStop(l, s.time));
  }

  lemma BootstrapFails(env: Env, s: Flow)
    requires Sync(s).current == s.current
    ensures Bootstrap(env, s).err.NoError? <==> !LinkFails(env, s, Fsk)
  {
    hide Transition;
    TransitionFails(env, s, Fsk);
  }

  lemma GoToFails(env: Env, s: Flow, l: Link)
    ensures GoTo(env, s, l).err.NoError? <==> !LinkFails(env, s, l)
  {
    hide Transition, TryPending, LinkFails;
    TransitionFails(env, s, l);
  }

  /** The chosen fallback cannot be started. */
  ghost predicate FallbackFails(env: Env, s: Flow)
    requires s.pending.Some?
  {
    var c := Candidate(s.status.up, s.time, s.pending.value.tried);
    c.Some? && LinkFails(env, s, FirstStop(c.value, s.time))
  }

  lemma FallbackFailsAlike(env: Env, s: Flow, t: Flow)
    requires s.pending.Some? && t.pending == s.pending && t.count == s.count && t.time == s.time
    requires t.status == s.status && t.config == s.config && t.current == s.current
    ensures FallbackFails(env, t) <==> FallbackFails(env, s)
  {
    hide LinkFails, Sync;
    SyncAlike(s, t);
    var c := Candidate(s.status.up, s.time, s.pending.value.tried);
    if c.Some? {
      LinkFailsAlike(env, s, t, FirstStop(c.value, s.time));
    }
  }

  lemma FallBackDrops(env: Env, s: Flow)
    requires Shape(s) && s.pending.Some?
    ensures FallBackOrFail(env, s).pending.None? <==>
              !s.pending.value.allow || Exhausted(s) || FallbackFails(env, s)
  {
    hide ReachTarget, LinkFails, Sync;
    MarkedAlready(s);
    ExhaustedExactly(s);
    var c := Candidate(s.status.up, s.time, s.pending.value.tried);
    if s.pending.value.allow && c.Some? {
      var switched := SwitchTo(s, c.value);
      ReachFails(env, switched, c.value);
      SyncAlike(s, switched);
      LinkFailsAlike(env, s, switched, FirstStop(c.value, s.time));
      assert SelectFallback(env, s) == FallbackTo(env, s, c.value);
    }
  }

  /** A wait stage expired with no retry left, or a failed result used up the last retry. */
  ghost predicate GivesUp(s: Flow, e: Event) {
    || (e.EvTimeout? && s.mode && !s.stage.Idle?)
    || (e.EvResult? && Matches(s, e.res) && !e.res.success && s.retries.tx >= MAX_TX_RETRIES)
  }

  ghost predicate Delivered(s: Flow, e: Event) {
    e.EvResult? && Matches(s, e.res) && e.res.success
  }

  /** Statuses, timeouts and results take a message away exactly when it is delivered, or when
      its link is given up and it is strict, exhausted, or its fallback cannot be started. */
  lemma DroppedExactly(env: Env, s: Flow, e: Event)
    requires Shape(s) && SourceLimits(env) && s.pending.Some?
    requires e.EvStatus? || e.EvTimeout? || e.EvResult? || e.EvReport?
    ensures Step(env, s, e).pending.None? <==>
              || Delivered(s, e)
              || (GivesUp(s, e) &&
                    (!s.pending.value.allow || Exhausted(s) || FallbackFails(env, s)))
  {
    match e
    case EvTimeout => TimeoutDrops(env, s);
    case EvResult(res) => ResultDrops(env, s, res);
    case EvStatus(st) => StatusHolds(env, s, st);
    case EvReport =>
  }

  lemma TimeoutDrops(env: Env, s: Flow)
    requires Shape(s) && SourceLimits(env) && s.pending.Some?
    ensures Timeout(env, s).pending.None? <==>
              GivesUp(s, EvTimeout) &&
              (!s.pending.value.allow || Exhausted(s) || FallbackFails(env, s))
  {
    hide FallBackOrFail, RetryStage;
    var noted := Note1(s, TimedOut(s.pending.value.tag));
    FallBackDrops(env, noted);
    FallbackFailsAlike(env, s, noted);
    hide FallbackFails, Exhausted;
  }

  lemma ResultDrops(env: Env, s: Flow, res: Result)
    requires Shape(s) && s.pending.Some?
    ensures TxResult(env, s, res).pending.None? <==>
              || Delivered(s, EvResult(res))
              || (GivesUp(s, EvResult(res)) &&
                    (!s.pending.value.allow || Exhausted(s) || FallbackFails(env, s)))
  {
    hide FallBackOrFail, RetrySend;
    var settled := Note1(s, Settle(s.pending.value.attempt)).(inflight := false);
    FallBackDrops(env, settled);
    FallbackFailsAlike(env, s, settled);
    hide FallbackFails;
  }

  lemma StatusHolds(env: Env, s: Flow, st: Status)
    ensures KeptOrFreed(s, NewStatus(env, s, st))
    ensures NewStatus(env, s, st).pending.Some? == s.pending.Some?
  {
    hide TryPending, LeaveFsk;
  }

  // ---------------------------------------------------------------- what strands a message

  /** A new target strands the pending message: it is not in flight, the target is another link,
      and the flow does not get to send the message before it forgets the wait. */
  ghost predicate RetargetStrands(env: Env, s: Flow, target: Link) {
    s.pending.Some? && !s.inflight && target != s.pending.value.desc.link
    && !((target.Lora? ==> s.time) && LinkReady(s.status, target)
         && LinkReady(s.status, s.pending.value.desc.link) && !LinkFails(env, s, target))
  }

  /** The error of reach_target for link l is discarded: the link is not ready, and the stop or the
      start on the way to it is refused. */
  ghost predicate Unreachable(env: Env, s: Flow, l: Link) {
    !LinkReady(s.status, l) && LinkFails(env, s, FirstStop(l, s.time))
  }

  /** The event discards an error of reach_target: a new message whose link cannot be reached, or a
      failed one with a retry left. */
  ghost predicate DiscardsError(env: Env, s: Flow, e: Event) {
    if e.EvSend? then
      var p := PrepareSession(env, s);
      p.err.NoError? && Unreachable(env, p.flow, Accept(p.flow, e.req).desc.link)
    else
      e.EvResult? && Matches(s, e.res) && !e.res.success && s.retries.tx < MAX_TX_RETRIES
      && Unreachable(env, s, s.pending.value.desc.link)
  }

  /** The event strands a message. */
  ghost predicate Strands(env: Env, s: Flow, e: Event) {
    match e
    case EvSet(target) => RetargetStrands(env, s, target)
    case EvSwitch => RetargetStrands(env, Sync(s), SwitchTarget(s))
    case _ => DiscardsError(env, s, e) && (s.mode ==> s.stage.Idle?)
  }

  lemma ResultDiscards(env: Env, s: Flow, res: Result)
    ensures Discarded(s, TxResult(env, s, res)) <==> DiscardsError(env, s, EvResult(res))
  {
    hide RetrySend, FallBackOrFail;
    if Matches(s, res) {
      var settled := Note1(s, Settle(s.pending.value.attempt)).(inflight := false);
      RetryDiscards(env, settled);
      assert forall tag :: Discards(settled.notes, tag) == Discards(s.notes, tag);
      SyncAlike(s, settled);
    }
  }

  lemma RetryDiscards(env: Env, s: Flow)
    requires s.pending.Some?
    ensures Discarded(s, RetrySend(env, s)) <==> Unreachable(env, s, s.pending.value.desc.link)
  {
    hide TryPending, ReachTarget, LinkFails;
    var l := s.pending.value.desc.link;
    var again := s.(retries := s.retries.(tx := s.retries.tx + 1), target := Some(l));
    ReachFails(env, again, l);
    LinkFailsAlike(env, s, again, FirstStop(l, s.time));
  }

  lemma SendDiscards(env: Env, s: Flow, req: Request)
    requires Shape(s)
    ensures Discarded(s, FlowSend(env, s, req)) <==> DiscardsError(env, s, EvSend(req))
  {
    hide Submit, PrepareSession, LinkFails, Shape;
    var p := PrepareSession(env, s);
    PrepareDrops(env, s);
    if p.err.NoError? {
      hide Replace, Accept, LinkReady, Discards;
      var held := Replace(p.flow, req);
      SubmitDiscards(env, held);
      ReplaceAlike(p.flow, req);
      LinkFailsAlike(env, held, p.flow, FirstStop(held.pending.value.desc.link, p.flow.time));
    }
  }

  lemma ReplaceAlike(s: Flow, req: Request)
    ensures var t := Replace(s, req);
            && t.pending == Some(Accept(s, req)) && Accept(s, req).tag == req.tag
            && Sync(t).current == Sync(s).current && t.count == s.count
            && t.status == s.status && t.time == s.time
            && Discards(t.notes, req.tag) == Discards(s.notes, req.tag)
  {
    hide Accept, Discards, Sync;
    FreedAlike(s, req.tag);
    SyncAlike(s, Replace(s, req));
    assert Accept(s, req).tag == req.tag by { AcceptTag(s, req); }
  }

  lemma AcceptTag(s: Flow, req: Request)
    ensures Accept(s, req).tag == req.tag
  {
  }

  lemma FreedAlike(s: Flow, tag: nat)
    ensures var t := FreePending(s);
            && t.current == s.current && t.config == s.config && t.status == s.status
            && Discards(t.notes, tag) == Discards(s.notes, tag)
  {
  }

  lemma PrepareDrops(env: Env, s: Flow)
    requires Shape(s)
    ensures !PrepareSession(env, s).err.NoError? ==> s.pending.None?
  {
  }

  lemma SubmitDiscards(env: Env, s: Flow)
    requires s.pending.Some?
    ensures Discarded(s, Submit(env, s)) <==> Unreachable(env, s, s.pending.value.desc.link)
  {
    hide TryPending, ReachTarget, LinkFails;
    var l := s.pending.value.desc.link;
    var waiting := s.(retries := NO_RETRIES);
    ReachFails(env, waiting, l);
    LinkFailsAlike(env, s, waiting, FirstStop(l, s.time));
  }

  /** A set strands the pending message exactly as RetargetStrands says. */
  lemma SetStrandsExactly(env: Env, s: Flow, target: Link, tag: nat)
    requires Good(s, tag, None) && Covered(s)
    ensures Covered(FlowSet(env, s, target)) <==> !RetargetStrands(env, s, target)
  {
    if s.pending.Some? {
      AimStrandsExactly(env, s, target, tag);
    }
  }

  lemma AimStrandsExactly(env: Env, s: Flow, target: Link, tag: nat)
    requires Good(s, tag, None) && Covered(s) && s.pending.Some?
    ensures Covered(AimAt(env, s, target)) <==> !RetargetStrands(env, s, target)
  {
    hide ReachTarget, LinkFails;
    var reset := NoteRetarget(s).(retries := NO_RETRIES);
    assert Good(reset, tag, None);
    ReachStrands(env, reset, target, tag);
    LinkFailsAlike(env, s, reset, target);
  }

  lemma ReachStrands(env: Env, s: Flow, target: Link, tag: nat)
    requires Good(s, tag, None) && Covered(s) && s.pending.Some?
    ensures Covered(ReachTarget(env, s, target).flow) <==> !RetargetStrands(env, s, target)
  {
    hide GoTo, Bootstrap, LinkFails;
    var aimed := Sync(s).(target := Some(target));
    ReachTargetKeeps(env, s, target, tag, None);
    SyncKeeps(s, tag, None);
    ArmKeeps(Sync(s), target, s.stage, tag, None);
    if target.Lora? && !s.time {
      BootstrapKeeps(env, aimed, target, tag, None);
    } else if s.inflight {
      GoToInFlight(env, aimed, target);
    } else if target != s.pending.value.desc.link {
      GoToStrands(env, aimed, target, tag);
      LinkFailsAlike(env, s, aimed, target);
    }
  }

  lemma GoToInFlight(env: Env, s: Flow, target: Link)
    requires s.pending.Some? && s.inflight
    ensures GoTo(env, s, target).flow.inflight
  {
    hide Transition;
  }

  lemma GoToStrands(env: Env, s: Flow, target: Link, tag: nat)
    requires Good(s, tag, None) && s.pending.Some? && !s.inflight && target != s.pending.value.desc.link
    requires s.target == Some(target) && (target.Lora? ==> s.time)
    ensures Covered(GoTo(env, s, target).flow) <==>
              && LinkReady(s.status, target) && LinkReady(s.status, s.pending.value.desc.link)
              && !LinkFails(env, s, target)
  {
    hide Transition, LinkFails;
    TransitionFails(env, s, target);
    TransitionKeeps(env, s, target, false, tag, None);
    var t := CancelWait(Transition(env, s, target, false).flow);
    ArmKeeps(Transition(env, s, target, false).flow, target, Idle, tag, None);
    assert t == t.(target := Some(target), stage := Idle, timer := false);
    TryPendingKeeps(env, t, tag, None);
  }

  /** Exactly when a step strands a covered message, told from the state before it. */
  lemma StrandedExactly(env: Env, s: Flow, e: Event, tag: nat)
    requires Good(s, tag, None) && env.maxLora == 0 && Admits(s, e, tag, None) && Covered(s)
    ensures Covered(Step(env, s, e)) <==> !Strands(env, s, e)
  {
    hide FlowSet, FlowSend, TxResult, NewStatus, Timeout;
    match e
    case EvSet(target) => SetStrandsExactly(env, s, target, tag);
    case EvSwitch =>
      SyncKeeps(s, tag, None);
      SetStrandsExactly(env, Sync(s), SwitchTarget(s), tag);
    case EvSend(req) =>
      StepCovers(env, s, e, tag);
      SendDiscards(env, s, req);
    case EvResult(res) =>
      StepCovers(env, s, e, tag);
      ResultDiscards(env, s, res);
    case EvStatus(_) => StepCovers(env, s, e, tag);
    case EvTimeout => StepCovers(env, s, e, tag);
    case _ =>
  }

  // ---------------------------------------------------------------- timeouts

  /** Every timeout that finds a wait stage and a pending message drops the message or tries a
      link it has not tried before. */
  lemma TimeoutProgress(env: Env, s: Flow)
    requires Shape(s) && SourceLimits(env) && s.pending.Some? && !s.stage.Idle?
    ensures var t := Step(env, s, EvTimeout);
            || t.pending.None?
            || (t.pending.value.tag == s.pending.value.tag && s.pending.value.allow
                && s.pending.value.tried.Size() < t.pending.value.tried.Size())
  {
  }

  // ---------------------------------------------------------------- memory

  function Held(s: Flow, tag: nat): nat {
    if s.pending.Some? && s.pending.value.tag == tag then 1 else 0
  }

  function Sent(e: Event, tag: nat): nat {
    if e.EvSend? && e.req.tag == tag then 1 else 0
  }

  /** The result settles attempt no. */
  function Settling(s: Flow, res: Result, no: nat): nat {
    if Matches(s, res) && s.pending.value.attempt == no then 1 else 0
  }

  /** Freed and still held copies of message tag. */
  ghost function Copies(s: Flow, tag: nat): nat {
    Frees(s.notes, tag) + Held(s, tag)
  }

  ghost predicate SameCounts(s: Flow, t: Flow, tag: nat) {
    && Copies(t, tag) == Copies(s, tag) && Timeouts(t.notes, tag) == Timeouts(s.notes, tag)
    && NotesGrow(s, t, tag) && SameHolder(s, t, tag) && Settles(t.notes, tag) == Settles(s.notes, tag)
  }

  /** If t holds message tag, s held it too, with no more links tried. */
  ghost predicate SameHolder(s: Flow, t: Flow, tag: nat) {
    Holds(t, tag) ==> Holds(s, tag) && SameTag(s.pending.value, t.pending.value)
  }

  /** What was noted about message tag stays noted. */
  ghost predicate NotesGrow(s: Flow, t: Flow, tag: nat) {
    Retargets(s.notes, tag) <= Retargets(t.notes, tag) && Discards(s.notes, tag) <= Discards(t.notes, tag)
  }

  lemma KeptCounts(s: Flow, t: Flow, tag: nat)
    requires KeptOrFreed(s, t) || KeptOrDiscarded(s, t)
    ensures SameCounts(s, t, tag)
  {
    hide Frees, Timeouts, Settles, Retargets, Discards;
    if s.pending.Some? {
      OneNote(s.notes, Freed(s.pending.value.tag), tag);
      OneNote(s.notes, Discard(s.pending.value.tag), tag);
    }
  }

  lemma OneNote(notes: Log<Note>, last: Note, tag: nat)
    requires last.Freed? || last.Discard?
    ensures var more := After(notes, last);
            && Frees(more, tag) == Frees(notes, tag) + (if last == Freed(tag) then 1 else 0)
            && Discards(more, tag) == Discards(notes, tag) + (if last == Discard(tag) then 1 else 0)
            && Timeouts(more, tag) == Timeouts(notes, tag) && Settles(more, tag) == Settles(notes, tag)
            && Retargets(more, tag) == Retargets(notes, tag)
  {
  }

  /** A step conserves the copies of message tag and a send adds one, so no message is freed
      twice or lost; only a timeout counts as one. */
  lemma StepCounts(env: Env, s: Flow, e: Event, tag: nat)
    ensures var t := Step(env, s, e);
            && Copies(t, tag) == Copies(s, tag) + Sent(e, tag)
            && Timeouts(t.notes, tag) ==
                 Timeouts(s.notes, tag) + (if e.EvTimeout? && Fires(s) then Held(s, tag) else 0)
            && NotesGrow(s, t, tag)
            && (Sent(e, tag) == 0 ==> SameHolder(s, t, tag))
            && Settles(t.notes, tag) ==
                 Settles(s.notes, tag) + (if e.EvResult? then Settling(s, e.res, tag) else 0)
            && (Retargeting(s, e) && s.mode && s.handle ==>
                  Retargets(t.notes, tag) == Retargets(s.notes, tag) + Held(s, tag))
  {
    hide TryPending, FlowSet, FlowSend, FlowCancel, Timeout, TxResult, NewStatus,
         RawInit, RawDeinit, RawStartStop, Frees, Timeouts, Settles, Retargets, Discards;
    match e
    case EvTimeout => TimeoutNotes(env, s, tag);
    case EvResult(res) => ResultNotes(env, s, res, tag);
    case EvSend(req) => SendNotes(env, s, req, tag);
    case EvSet(target) => SetNotes(env, s, target, tag);
    case EvSwitch => SetNotes(env, Sync(s), SwitchTarget(s), tag);
    case EvStatus(st) => StatusNotes(env, s, st, tag);
    case _ =>
      PlainKept(env, s, e);
      KeptCounts(s, Step(env, s, e), tag);
  }

  lemma PlainKept(env: Env, s: Flow, e: Event)
    requires e.EvCancel? || e.EvReport? || e.EvInit? || e.EvDeinit? || e.EvStartStop? || e.EvForeign?
             || e.EvExpire? || e.EvTask? || e.EvIdle?
    ensures KeptOrFreed(s, Step(env, s, e))
  {
  }

  lemma StatusNotes(env: Env, s: Flow, st: Status, tag: nat)
    ensures SameCounts(s, NewStatus(env, s, st), tag)
  {
    StatusHolds(env, s, st);
    KeptCounts(s, NewStatus(env, s, st), tag);
  }

  lemma TimeoutNotes(env: Env, s: Flow, tag: nat)
    ensures var t := Timeout(env, s);
            && Copies(t, tag) == Copies(s, tag)
            && Timeouts(t.notes, tag) == Timeouts(s.notes, tag) + (if Fires(s) then Held(s, tag) else 0)
            && NotesGrow(s, t, tag) && SameHolder(s, t, tag)
            && Settles(t.notes, tag) == Settles(s.notes, tag)
  {
    KeptCounts(if Fires(s) then NoteTimeout(s) else s, Timeout(env, s), tag);
  }

  lemma ResultNotes(env: Env, s: Flow, res: Result, tag: nat)
    ensures var t := TxResult(env, s, res);
            && Copies(t, tag) == Copies(s, tag) && Timeouts(t.notes, tag) == Timeouts(s.notes, tag)
            && NotesGrow(s, t, tag) && SameHolder(s, t, tag)
            && Settles(t.notes, tag) == Settles(s.notes, tag) + Settling(s, res, tag)
  {
    if Matches(s, res) {
      var settled := Note1(s, Settle(s.pending.value.attempt));
      var t := TxResult(env, s, res);
      if res.success {
        KeptCounts(settled, t, tag);
      } else {
        KeptCounts(settled.(inflight := false), t, tag);
      }
    }
  }

  lemma SendNotes(env: Env, s: Flow, req: Request, tag: nat)
    ensures var t := FlowSend(env, s, req);
            && Copies(t, tag) == Copies(s, tag) + Sent(EvSend(req), tag)
            && Timeouts(t.notes, tag) == Timeouts(s.notes, tag)
            && NotesGrow(s, t, tag) && (req.tag != tag ==> SameHolder(s, t, tag))
            && Settles(t.notes, tag) == Settles(s.notes, tag)
  {
    hide PrepareSession, Submit;
    var p := PrepareSession(env, s);
    if p.err.NoError? {
      KeptCounts(Replace(p.flow, req), FlowSend(env, s, req), tag);
    }
  }

  lemma SetNotes(env: Env, s: Flow, target: Link, tag: nat)
    ensures SameCounts(s, FlowSet(env, s, target), tag)
    ensures s.mode && s.handle ==>
              Retargets(FlowSet(env, s, target).notes, tag) == Retargets(s.notes, tag) + Held(s, tag)
  {
    hide AimAt;
    var t := FlowSet(env, s, target);
    if KeptOrFreed(s, t) {
      KeptCounts(s, t, tag);
    } else {
      KeptCounts(NoteRetarget(s), t, tag);
    }
  }
}

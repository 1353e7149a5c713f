/** Concrete runs that show which provisos of the main results are needed. */
module FlowWitness {
  import opened Links
  import opened FlowModel
  import opened FlowInvariant
  import opened FlowSteps
  import opened FlowDelivery
  import opened FlowRuns
  import opened FlowCompletion

  /** A stack that answers every call with success and id, except for call number bad. */
  function Failing(bad: nat, id: nat): nat -> Answer {
    n => if n == bad then Answer(OtherError, id, false) else Answer(NoError, id, true)
  }

  function Scripted(env: Env, bad: nat, id: nat): Env {
    env.(answer := Failing(bad, id))
  }

  const LORA_UP := Status(true, false, LinkSet(false, false, true))

  function StrictOnly(l: Link, kind: MsgType, id: nat): Request {
    FlowModel.Request(0, Some(l), false, kind, id)
  }

  /** A fresh send whose `sid_start` fails leaves the message pending with no wait armed. */
  lemma DiscardStrands(env: Env, config: Config)
    ensures var t := Run(Scripted(env, 2, 1), Boot(env, config), [EvSend(StrictOnly(Fsk, Notify, 0))]);
            t.pending.Some? && !t.inflight && t.stage.Idle? && !Covered(t)
  {
    hide TryPending;
    var e := Scripted(env, 2, 1);
    var s := Boot(e, config);
    var ev := EvSend(StrictOnly(Fsk, Notify, 0));
    SessionOpens(e, config);
    var held := Replace(PrepareSession(e, s).flow, ev.req);
    var r := ReachTarget(e, held.(retries := NO_RETRIES), Fsk);
    assert !r.err.NoError? && r.flow.stage.Idle?;
    assert Run(e, s, [ev]) == Run(e, Step(e, s, ev), []);
    assert s == Boot(env, config);
  }

  lemma RunStep(env: Env, s: Flow, e: Event, rest: seq<Event>)
    ensures Run(env, s, [e] + rest) == Run(env, Step(env, s, e), rest)
  {
    assert ([e] + rest)[1..] == rest;
  }

  /** Starting FSK in a fresh session. */
  lemma FskStarts(e: Env, s: Flow)
    requires s.current.None? && s.config.OtherMask? && s.status.up == NO_LINKS
    requires e.answer(s.count).err.NoError?
    ensures Transition(e, s, Fsk, false) ==
              Outcome(s.(count := s.count + 1, calls := After(s.calls, Start(Fsk, true)),
                         config := TargetMask(Fsk), current := Some(Fsk)), NoError)
  {
  }

  /** A fresh flow session, as prepare_session leaves it when every call succeeds. */
  lemma SessionOpens(e: Env, config: Config)
    requires e.answer(0).err.NoError? && e.answer(1).err.NoError?
    ensures var s := Boot(e, config);
            PrepareSession(e, s) ==
              Outcome(NewSession(s.(count := 2, calls := After(After(Nil, CheckData), Session),
                                    config := OtherMask)), NoError)
  {
  }

  /** The state after a strict send for FSK or LoRa: FSK is starting. */
  function Opened(env: Env, config: Config, req: Request, l: Link): Flow {
    NewSession(Boot(env, config)).(
      count := 3, calls := After(After(After(Nil, CheckData), Session), Start(Fsk, true)),
      config := TargetMask(Fsk), current := Some(Fsk), target := Some(l), stage := WaitFsk, timer := true,
      pending := Some(Msg(req.tag, Desc(req.id, l, req.kind), req.allow, NO_LINKS.With(l), 0)))
  }

  lemma SendOpens(env: Env, config: Config, req: Request, l: Link, bad: nat, id: nat)
    requires bad > 2 && !l.Ble? && req.want == Some(l)
    ensures FlowSend(Scripted(env, bad, id), Boot(env, config), req) == Opened(env, config, req, l)
  {
    hide Transition;
    var e := Scripted(env, bad, id);
    SessionOpens(e, config);
    assert Boot(e, config) == Boot(env, config);
    var held := Replace(PrepareSession(e, Boot(e, config)).flow, req);
    var aimed := Sync(held).(target := Some(l));
    FskStarts(e, aimed);
    assert held.(retries := NO_RETRIES) == held;
    var t := Opened(env, config, req, l);
    assert ReachTarget(e, held, l) == Outcome(t, NoError);
    assert Sync(t) == t;
  }

  /** A set for LoRa before the time is known changes what the flow waits for, and no more. */
  lemma SetMoves(e: Env, s: Flow)
    requires s.mode && s.handle && s.current == Some(Fsk) && s.config == TargetMask(Fsk) && !s.time
    requires s.pending.Some? && s.status.up == NO_LINKS && s.stage.WaitFsk?
    ensures FlowSet(e, s, Lora) == NoteRetarget(s).(retries := NO_RETRIES, target := Some(Lora), timer := true)
  {
  }

  lemma StatusIdles(e: Env, s: Flow)
    requires s.mode && s.handle && s.target == Some(Lora) && s.pending.Some? && !s.inflight
    requires s.pending.value.desc.link.Fsk? && !s.time
    ensures var t := NewStatus(e, s, LORA_UP);
            t.stage.Idle? && t.target.None? && t.pending == s.pending && !t.inflight
            && t.notes == s.notes
  {
  }

  /** A set for another link strands a message that is waiting for its own. */
  lemma SetStrands(env: Env, config: Config)
    ensures var t := Run(Scripted(env, 100, 1), Boot(env, config),
                         [EvSend(StrictOnly(Fsk, Notify, 1)), EvSet(Lora), EvStatus(LORA_UP)]);
            t.pending.Some? && !Covered(t) && Discards(t.notes, 0) == 0
  {
    hide FlowSend, FlowSet, NewStatus;
    var e := Scripted(env, 100, 1);
    SendOpens(env, config, StrictOnly(Fsk, Notify, 1), Fsk, 100, 1);
    var s1 := Opened(env, config, StrictOnly(Fsk, Notify, 1), Fsk);
    SetMoves(e, s1);
    StatusIdles(e, FlowSet(e, s1, Lora));
    RunThree(e, Boot(env, config), EvSend(StrictOnly(Fsk, Notify, 1)), EvSet(Lora), EvStatus(LORA_UP));
  }

  lemma RunThree(env: Env, s: Flow, a: Event, b: Event, c: Event)
    ensures Run(env, s, [a, b, c]) == Step(env, Step(env, Step(env, s, a), b), c)
  {
    hide Step;
    RunStep(env, s, a, [b, c]);
    RunStep(env, Step(env, s, a), b, [c]);
    RunStep(env, Step(env, Step(env, s, a), b), c, []);
    assert [a] + [b, c] == [a, b, c] && [b] + [c] == [b, c] && [c] + [] == [c];
  }

  /** With a LoRa retry allowed, a timeout starts LoRa although the time was never known. */
  lemma LoraRetryBreaks(env: Env, config: Config)
    requires env.maxLora > 0
    ensures var t := Run(Scripted(env, 3, 1), Boot(env, config),
                         [EvSend(StrictOnly(Lora, Notify, 1)), EvStatus(LORA_UP), EvTimeout]);
            !LoraAfterTime(t.calls)
  {
    hide FlowSend, NewStatus, Timeout;
    var e := Scripted(env, 3, 1);
    SendOpens(env, config, StrictOnly(Lora, Notify, 1), Lora, 3, 1);
    var s1 := Opened(env, config, StrictOnly(Lora, Notify, 1), Lora);
    LoraRejected(e, s1);
    TimeoutRestartsLora(e, NewStatus(e, s1, LORA_UP));
    RunThree(e, Boot(env, config), EvSend(StrictOnly(Lora, Notify, 1)), EvStatus(LORA_UP), EvTimeout);
  }

  lemma LoraRejected(e: Env, s: Flow)
    requires s.mode && s.handle && !s.time && !s.inflight && s.target == Some(Lora)
    requires s.pending.Some? && s.pending.value.desc.link.Lora? && !s.pending.value.allow
    requires s.current == Some(Fsk) && !e.answer(s.count).err.NoError?
    ensures var t := NewStatus(e, s, LORA_UP);
            && t.mode && t.handle && t.stage.WaitLora? && t.current == Some(Lora)
            && t.count == s.count + 1 && t.retries == s.retries
            && t.status == LORA_UP && TimeKnown(t.calls) == TimeKnown(s.calls)
  {
    var synced := Sync(s.(status := LORA_UP));
    assert synced.current == Some(Lora) && CacheTime(synced) == synced && LeaveFsk(e, synced) == synced;
    var arrived := Arrive(synced);
    var r := SidPut(e, arrived);
    assert !r.err.NoError? && SelectFallback(e, r.flow) == Choice(r.flow, false);
    assert TryPending(e, arrived) == Rearm(r.flow);
  }

  lemma TimeoutRestartsLora(e: Env, s: Flow)
    requires s.mode && s.handle && s.stage.WaitLora? && s.current == Some(Lora)
    requires s.retries.lora < e.maxLora && s.status == LORA_UP && !TimeKnown(s.calls)
    requires e.answer(s.count).err.NoError? && e.answer(s.count + 1).err.NoError?
    ensures !LoraAfterTime(Timeout(e, s).calls)
  {
    hide FallBackOrFail, Transition;
    var counted := NoteTimeout(s).(retries := CountRetry(s.retries, Lora));
    LoraRestarts(e, counted);
  }

  lemma LoraRestarts(e: Env, s: Flow)
    requires s.current == Some(Lora) && s.status == LORA_UP && !TimeKnown(s.calls)
    requires e.answer(s.count).err.NoError? && e.answer(s.count + 1).err.NoError?
    ensures var r := Transition(e, s, Lora, true);
            r.err.NoError? && !LoraAfterTime(r.flow.calls)
  {
    hide LinkStarted;
    var stopped := StopCurrent(e, Sync(s));
    assert stopped.err.NoError? && stopped.flow.calls == After(s.calls, Stop(Lora, true));
    assert stopped.flow.count == s.count + 1;
    var started := SidStart(e, stopped.flow, Lora);
    StartedStays(e, started.flow);
  }

  /** What follows a start leaves the start in the log. */
  lemma StartedStays(e: Env, s: Flow)
    ensures LoraAfterTime(LinkStarted(e, s, Lora).calls) ==> LoraAfterTime(s.calls)
  {
    var c := ConfigurePolicy(e, s.(config := TargetMask(Lora)));
    var one := After(s.calls, SetPolicy);
    assert c.calls == s.calls || c.calls == one || c.calls == After(one, SetParams);
    assert LoraAfterTime(one) == LoraAfterTime(s.calls);
    assert LoraAfterTime(After(one, SetParams)) == LoraAfterTime(one);
  }

  /** No LoRa before the time is known holds for every stack and every run exactly when no
      retry of the LoRa stage is allowed. */
  lemma NoLoraBeforeTimeExactly(env: Env)
    ensures (forall answer, config, evs ::
               LoraAfterTime(Run(env.(answer := answer), Boot(env, config), evs).calls))
            <==> env.maxLora == 0
  {
    if env.maxLora == 0 {
      forall answer, config, evs
        ensures LoraAfterTime(Run(env.(answer := answer), Boot(env, config), evs).calls)
      {
        var e := env.(answer := answer);
        var tag := UnusedTag(evs);
        assert Boot(e, config) == Boot(env, config);
        BootRunGood(e, config, evs, tag, None);
      }
    } else {
      LoraRetryBreaks(env, OtherMask);
      var evs := [EvSend(StrictOnly(Lora, Notify, 1)), EvStatus(LORA_UP), EvTimeout];
      assert !LoraAfterTime(Run(env.(answer := Failing(3, 1)), Boot(env, OtherMask), evs).calls);
    }
  }

  // ---------------------------------------------------------------- responses

  const FSK_UP := Status(true, false, LinkSet(false, true, false))

  /** The stack accepts a message whose link has come up. */
  lemma FskAccepts(e: Env, s: Flow)
    requires s.mode && s.handle && !s.time && !s.inflight && s.target == Some(Fsk) && s.current == Some(Fsk)
    requires s.pending.Some? && s.pending.value.desc.link.Fsk? && e.answer(s.count).err.NoError?
    ensures var m := s.pending.value;
            var d := m.desc.(id := e.answer(s.count).id);
            NewStatus(e, s, FSK_UP) ==
              s.(status := FSK_UP, stage := Idle, timer := false, target := None, inflight := true,
                 count := s.count + 1, calls := After(s.calls, Put(s.count, m.tag, d, true)),
                 pending := Some(m.(desc := d, attempt := s.count)))
  {
  }

  /** A failed transmission is put again at once while the link is up. */
  lemma FailureRetries(e: Env, s: Flow, res: Result)
    requires Matches(s, res) && !res.success && s.retries.tx < MAX_TX_RETRIES && s.handle
    requires LinkReady(s.status, s.pending.value.desc.link) && e.answer(s.count).err.NoError?
    ensures var t := TxResult(e, s, res);
            && t.mode && t.inflight && t.pending.Some? && t.pending.value.attempt == s.count
            && t.pending.value.desc == s.pending.value.desc.(id := e.answer(s.count).id)
            && t.calls == After(s.calls, Put(s.count, s.pending.value.tag, t.pending.value.desc, true))
  {
  }

  /** A response keeps the id of the message it answers, so fresh ids do not tell its attempts
      apart: a second result of the first attempt settles the retry. */
  lemma ResponsesAreMistaken(env: Env, config: Config)
    ensures var e := Scripted(env, 100, 7);
            var d := Desc(7, Fsk, Response);
            var s := Run(e, Boot(env, config),
                         [EvSend(StrictOnly(Fsk, Response, 7)), EvStatus(FSK_UP), EvResult(Result(3, false, d))]);
            && FreshIds(s.calls) && Accepted(s.calls, 3, 0, d)
            && s.inflight && s.pending.Some? && s.pending.value.attempt == 4
            && TxResult(e, s, Result(3, true, d)).pending.None?
  {
    hide FlowSend, NewStatus;
    var e := Scripted(env, 100, 7);
    var d := Desc(7, Fsk, Response);
    var req := StrictOnly(Fsk, Response, 7);
    SendOpens(env, config, req, Fsk, 100, 7);
    var s1 := Opened(env, config, req, Fsk);
    FskAccepts(e, s1);
    var s2 := NewStatus(e, s1, FSK_UP);
    FailureRetries(e, s2, Result(3, false, d));
    assert FreshIds(s1.calls) && FreshIds(s2.calls);
    RunThree(e, Boot(env, config), EvSend(req), EvStatus(FSK_UP), EvResult(Result(3, false, d)));
  }

  // ---------------------------------------------------------------- nine transmissions

  const ALL_UP := Status(true, true, LinkSet(true, true, true))

  function Answering(env: Env): Env {
    Scripted(env.(autoConnect := false), 100, 1)
  }

  function Failed(l: Link): Event {
    EvResult(Result(0, false, Desc(1, l, Notify)))
  }

  /** Message 0 is in flight on l with tx retries, accepted n times, with every link up. */
  ghost predicate Flying(s: Flow, l: Link, tried: LinkSet, tx: nat, n: nat) {
    && s.mode && s.handle && s.time && s.inflight && s.status == ALL_UP && s.retries.tx == tx
    && s.pending.Some? && s.pending.value.tag == 0 && s.pending.value.desc == Desc(1, l, Notify)
    && s.pending.value.allow && s.pending.value.tried == tried && tried.Has(l)
    && Accepts(s.calls, 0) == n && Retargets(s.notes, 0) == 0
  }

  lemma FirstFlies(env: Env, s: Flow)
    requires s.mode && s.handle && !s.inflight && s.target == Some(Fsk) && s.count < 100
    requires s.pending == Some(Msg(0, Desc(1, Fsk, Notify), true, NO_LINKS.With(Fsk), 0))
    requires s.retries == NO_RETRIES && Accepts(s.calls, 0) == 0 && Retargets(s.notes, 0) == 0
    ensures var t := NewStatus(Answering(env), s, ALL_UP);
            Flying(t, Fsk, NO_LINKS.With(Fsk), 0, 1) && t.count == s.count + 1
  {
  }

  lemma RetryFlies(env: Env, s: Flow, l: Link, tried: LinkSet, tx: nat, n: nat)
    requires Flying(s, l, tried, tx, n) && tx < MAX_TX_RETRIES && s.count < 100
    ensures var t := Step(Answering(env), s, Failed(l));
            Flying(t, l, tried, tx + 1, n + 1) && t.count == s.count + 1
  {
  }

  /** After the last retry the message is put at once on the next link. */
  lemma FallbackFlies(env: Env, s: Flow, l: Link, next: Link, tried: LinkSet, n: nat)
    requires Flying(s, l, tried, MAX_TX_RETRIES, n) && s.count < 90
    requires Candidate(ALL_UP.up, true, tried) == Some(next)
    ensures var t := Step(Answering(env), s, Failed(l));
            Flying(t, next, tried.With(next), 0, n + 1) && t.count <= s.count + 4
  {
    hide ReachTarget;
    var settled := Note1(s, Settle(s.pending.value.attempt)).(inflight := false);
    assert MarkAttempt(settled) == settled;
    ReachFlies(env, SwitchTo(settled, next), next, tried.With(next), n);
    assert SelectFallback(Answering(env), settled) == FallbackTo(Answering(env), settled, next);
  }

  lemma ReachFlies(env: Env, s: Flow, l: Link, tried: LinkSet, n: nat)
    requires Flying(s.(inflight := true), l, tried, 0, n) && !s.inflight && s.count < 90
    ensures var r := ReachTarget(Answering(env), s, l);
            r.err.NoError? && Flying(r.flow, l, tried, 0, n + 1) && r.flow.count <= s.count + 4
  {
    hide TryPending, Transition;
    var e, aimed := Answering(env), Sync(s).(target := Some(l));
    LinkComesUp(env, aimed, l);
    PutFlies(env, CancelWait(Transition(e, aimed, l, false).flow));
  }

  lemma LinkComesUp(env: Env, s: Flow, l: Link)
    requires s.count < 95
    ensures var r := Transition(Answering(env), s, l, false);
            r.err.NoError? && r.flow.count <= s.count + 3 && Accepts(r.flow.calls, 0) == Accepts(s.calls, 0)
  {
    hide StopCurrent, StartTarget;
    var e, synced := Answering(env), Sync(s);
    LinkStops(env, synced);
    LinkStarts(env, StopCurrent(e, synced).flow, l);
  }

  lemma LinkStops(env: Env, s: Flow)
    requires s.count < 95
    ensures var r := StopCurrent(Answering(env), s);
            r.err.NoError? && r.flow.count <= s.count + 1 && Accepts(r.flow.calls, 0) == Accepts(s.calls, 0)
  {
    hide Observed;
    if s.current.Some? {
      var first := SidStop(Answering(env), s, s.current.value);
      assert first.err.NoError? && RetryStop(Answering(env), first) == first;
    }
  }

  lemma LinkStarts(env: Env, s: Flow, l: Link)
    requires s.count < 97
    ensures var r := StartTarget(Answering(env), s, l);
            r.err.NoError? && r.flow.count <= s.count + 2 && Accepts(r.flow.calls, 0) == Accepts(s.calls, 0)
  {
    var started := SidStart(Answering(env), s, l);
    assert started.err.NoError? && Accepts(started.flow.calls, 0) == Accepts(s.calls, 0);
  }

  lemma PutFlies(env: Env, s: Flow)
    requires s.pending.Some? && s.handle && !s.inflight && s.count < 100
    requires LinkReady(s.status, s.pending.value.desc.link)
    ensures var r := SidPut(Answering(env), s);
            r.err.NoError? && TryPending(Answering(env), s) == r.flow.(inflight := true)
  {
  }

  function FallingBack(): Request {
    FlowModel.Request(0, Some(Fsk), true, Notify, 1)
  }

  function NineEvents(): seq<Event> {
    [EvSend(FallingBack()), EvStatus(ALL_UP),
     Failed(Fsk), Failed(Fsk), Failed(Fsk), Failed(Ble), Failed(Ble), Failed(Ble), Failed(Lora), Failed(Lora)]
  }

  /** Three failures on one link after its first transmission. */
  lemma LinkFlies(env: Env, s: Flow, l: Link, next: Link, tried: LinkSet, n: nat, rest: seq<Event>) returns (t: Flow)
    requires Flying(s, l, tried, 0, n) && s.count < 80 && Candidate(ALL_UP.up, true, tried) == Some(next)
    ensures Flying(t, next, tried.With(next), 0, n + 3) && t.count <= s.count + 6
    ensures Run(Answering(env), s, [Failed(l), Failed(l), Failed(l)] + rest) == Run(Answering(env), t, rest)
  {
    hide Step, Flying, Failed;
    var e, f := Answering(env), Failed(l);
    RetryFlies(env, s, l, tried, 0, n);
    var s1 := Step(e, s, f);
    RetryFlies(env, s1, l, tried, 1, n + 1);
    var s2 := Step(e, s1, f);
    FallbackFlies(env, s2, l, next, tried, n + 2);
    t := Step(e, s2, f);
    RunStep(e, s, f, [f, f] + rest);
    RunStep(e, s1, f, [f] + rest);
    RunStep(e, s2, f, rest);
    assert [f, f, f] + rest == [f] + ([f, f] + rest) && [f, f] + rest == [f] + ([f] + rest);
  }

  /** Nine transmissions are reached: a message that fails on all three links is accepted nine
      times without any retarget. */
  lemma NineReached(env: Env, config: Config)
    ensures var t := Run(Answering(env), Boot(env, config), NineEvents());
            Accepts(t.calls, 0) == 9 && Retargets(t.notes, 0) == 0
    ensures Sends(NineEvents(), 0) == 1
  {
    hide Step, Failed, Run;
    var two, three := [Failed(Lora), Failed(Lora)], [Failed(Ble), Failed(Ble), Failed(Ble)];
    var first := [Failed(Fsk), Failed(Fsk), Failed(Fsk)];
    var fsk := FirstRun(env, config, first + (three + two));
    assert NineEvents() == [EvSend(FallingBack()), EvStatus(ALL_UP)] + (first + (three + two));
    SentOnce();
    LastFlies(env, fsk, two, three, first);
  }

  lemma FirstRun(env: Env, config: Config, rest: seq<Event>) returns (t: Flow)
    ensures Flying(t, Fsk, NO_LINKS.With(Fsk), 0, 1) && t.count < 10
    ensures Run(Answering(env), Boot(env, config), [EvSend(FallingBack()), EvStatus(ALL_UP)] + rest)
         == Run(Answering(env), t, rest)
  {
    hide FlowSend, NewStatus, Flying;
    var e, s := Answering(env), Opened(env.(autoConnect := false), config, FallingBack(), Fsk);
    SendOpens(env.(autoConnect := false), config, FallingBack(), Fsk, 100, 1);
    assert Boot(env.(autoConnect := false), config) == Boot(env, config);
    FirstFlies(env, s);
    t := NewStatus(e, s, ALL_UP);
    RunStep(e, Boot(env, config), EvSend(FallingBack()), [EvStatus(ALL_UP)] + rest);
    RunStep(e, s, EvStatus(ALL_UP), rest);
    hide Run;
    assert [EvSend(FallingBack()), EvStatus(ALL_UP)] + rest == [EvSend(FallingBack())] + ([EvStatus(ALL_UP)] + rest);
  }

  lemma LastFlies(env: Env, s: Flow, two: seq<Event>, three: seq<Event>, first: seq<Event>)
    requires Flying(s, Fsk, NO_LINKS.With(Fsk), 0, 1) && s.count < 10
    requires first == [Failed(Fsk), Failed(Fsk), Failed(Fsk)] && three == [Failed(Ble), Failed(Ble), Failed(Ble)]
    requires two == [Failed(Lora), Failed(Lora)]
    ensures var t := Run(Answering(env), s, first + (three + two));
            Accepts(t.calls, 0) == 9 && Retargets(t.notes, 0) == 0
  {
    hide Step, Failed;
    var e := Answering(env);
    var ble := LinkFlies(env, s, Fsk, Ble, NO_LINKS.With(Fsk), 1, three + two);
    var lora := LinkFlies(env, ble, Ble, Lora, NO_LINKS.With(Fsk).With(Ble), 4, two);
    RetryFlies(env, lora, Lora, NO_LINKS.With(Fsk).With(Ble).With(Lora), 0, 7);
    var next := Step(e, lora, Failed(Lora));
    RetryFlies(env, next, Lora, NO_LINKS.With(Fsk).With(Ble).With(Lora), 1, 8);
    RunStep(e, lora, Failed(Lora), [Failed(Lora)]);
    RunStep(e, next, Failed(Lora), []);
    assert two == [Failed(Lora)] + [Failed(Lora)] && [Failed(Lora)] == [Failed(Lora)] + [];
  }

  lemma SentOnce()
    ensures Sends(NineEvents(), 0) == 1
  {
    var evs := NineEvents();
    assert forall e :: e in evs[1..] ==> Sent(e, 0) == 0;
    SendsNone(evs[1..], 0);
  }

  lemma {:induction false} SendsNone(evs: seq<Event>, tag: nat)
    requires forall e :: e in evs ==> Sent(e, tag) == 0
    ensures Sends(evs, tag) == 0
    decreases |evs|
  {
    if evs != [] {
      SendsNone(evs[1..], tag);
    }
  }
}

/** What each event makes the flow do, in every state where it owns the stack: the links it moves to, the
    message it puts first, the wait that it starts or ends, and the retries that it grants. */
module FlowConduct {
  import opened Links
  import opened FlowModel
  import opened FlowInvariant
  import opened FlowDelivery
  import opened FlowRuns
  import opened FlowWitness
  import opened FlowCalls

  // ---------------------------------------------------------------- putting a message

  /** The next call after log puts message tag on link l. */
  ghost predicate PutNext(calls: Log<Call>, log: Log<Call>, tag: nat, l: Link) {
    && Begins(calls, log)
    && var c := NextCall(calls, log);
       c.Some? && c.value.Put? && c.value.tag == tag && c.value.desc.link == l
  }

  /** A pending message whose link is ready is put at once, unless it is in flight; a put that is
      granted ends the handler with the message in flight. */
  lemma TryPutsFirst(env: Env, s: Flow)
    requires Sendable(s) && s.handle
    ensures var t, m := TryPending(env, s), s.pending.value;
            && PutNext(t.calls, s.calls, m.tag, m.desc.link)
            && (Grants(env, s.count) ==>
                  && t.inflight && t.stage == s.stage && t.timer == s.timer && t.target == s.target
                  && t.retries == s.retries && t.pending.Some? && t.pending.value.tag == m.tag
                  && t.pending.value.allow == m.allow && t.pending.value.attempt == s.count
                  && t.pending.value.desc == m.desc.(id := env.answer(s.count).id)
                  && t.current == s.current && t.config == s.config && t.count == s.count + 1
                  && t.calls == After(s.calls, Put(s.count, m.tag, t.pending.value.desc, true)))
            && (!Grants(env, s.count) && !m.allow ==>
                  && !t.inflight && t.stage == WaitFor(m.desc.link) && t.timer && t.target == Some(m.desc.link))
  {
    hide SelectFallback;
    var put := SidPut(env, s).flow;
    assert put.calls.before == s.calls;
    if Grants(env, s.count) {
      assert Begins(put.calls, put.calls);
      NextStays(put.calls, s.calls, put.calls.last);
    } else {
      FallbackBegins(env, put);
      NextStays(SelectFallback(env, put).flow.calls, s.calls, put.calls.last);
      if !s.pending.value.allow {
        assert SelectFallback(env, put) == Choice(put, false) by { StrictStaysPut(env, put); }
      }
    }
  }

  lemma StrictStaysPut(env: Env, s: Flow)
    requires s.pending.Some? && !s.pending.value.allow
    ensures SelectFallback(env, s) == Choice(s, false)
  {
  }

  /** A message that cannot be put now changes nothing. */
  lemma TryNothing(env: Env, s: Flow)
    requires !(Sendable(s) && s.handle)
    ensures TryPending(env, s) == s
  {
  }

  // ---------------------------------------------------------------- reaching a link

  /** All calls of a granted transition to goal. */
  ghost function ArriveLog(env: Env, s: Flow, goal: Link): Log<Call> {
    if Sync(s).current == Some(goal) then
      if goal.Ble? && s.handle then After(s.calls, Connect) else s.calls
    else
      SetupLog(env, s, goal, RestartLog(env, s, goal), s.count + if Sync(s).current.Some? then 1 else 0)
  }

  lemma ArriveCalls(env: Env, s: Flow, goal: Link)
    requires !LinkFails(env, s, goal)
    ensures var r := Transition(env, s, goal, false);
            r.err.NoError? && r.flow.calls == ArriveLog(env, s, goal)
  {
    hide Transition, SetupLog, Sync;
    if Sync(s).current == Some(goal) {
      StayCalls(env, s, goal);
    } else {
      RestartCalls(env, s, goal, false);
    }
  }

  lemma ArriveAlike(env: Env, s: Flow, t: Flow, goal: Link)
    requires t.status == s.status && t.config == s.config && t.current == s.current
    requires t.count == s.count && t.calls == s.calls && t.policy == s.policy && t.handle == s.handle
    ensures ArriveLog(env, t, goal) == ArriveLog(env, s, goal) && MoveLog(env, t, goal) == MoveLog(env, s, goal)
    ensures LinkFails(env, t, goal) == LinkFails(env, s, goal)
  {
    SyncAlike(s, t);
    MoveAlike(env, s, t, goal);
    LinkFailsAlike(env, s, t, goal);
    hide Sync, SetupLog;
    SetupAlike(env, s, t, goal, RestartLog(env, s, goal), s.count + if Sync(s).current.Some? then 1 else 0);
  }

  ghost predicate WaitsFor(s: Flow, target: Link, stage: Stage) {
    s.target == Some(target) && s.stage == stage && s.timer
  }

  /** The link is up as far as it has to be to send: ready, and for LoRa the time known. */
  predicate Open(s: Flow, l: Link) {
    LinkReady(s.status, l) && (l.Lora? ==> s.time)
  }

  /** A granted move to a link that is not open ends in a wait for it, or for FSK on the way to LoRa. */
  lemma ReachWaits(env: Env, s: Flow, l: Link)
    requires !LinkFails(env, s, FirstStop(l, s.time)) && !Open(s, l)
    ensures var r := ReachTarget(env, s, l);
            && r.err.NoError? && WaitsFor(r.flow, l, WaitFor(FirstStop(l, s.time)))
            && r.flow.pending == s.pending && r.flow.inflight == s.inflight && r.flow.retries == s.retries
  {
    hide Transition, LinkFails;
    var aimed := Sync(s).(target := Some(l));
    SyncAlike(Sync(s), aimed);
    var goal := FirstStop(l, s.time);
    LinkFailsAlike(env, s, aimed, goal);
    TransitionFails(env, aimed, goal);
  }

  /** A refused move leaves the wait and the message as they were. */
  lemma ReachRefused(env: Env, s: Flow, l: Link)
    requires LinkFails(env, s, FirstStop(l, s.time))
    ensures var r := ReachTarget(env, s, l);
            && !r.err.NoError? && r.flow.target == Some(l) && r.flow.stage == s.stage && r.flow.timer == s.timer
            && r.flow.pending == s.pending && r.flow.inflight == s.inflight && r.flow.retries == s.retries
  {
    hide Transition, LinkFails;
    var aimed := Sync(s).(target := Some(l));
    SyncAlike(Sync(s), aimed);
    LinkFailsAlike(env, s, aimed, FirstStop(l, s.time));
    TransitionFails(env, aimed, FirstStop(l, s.time));
    ReachFails(env, s, l);
  }

  /** A granted move to an open link ends the wait and puts the message that waits for the link. */
  lemma ReachSends(env: Env, s: Flow, l: Link)
    requires !LinkFails(env, s, l) && Open(s, l)
    requires s.pending.Some? && s.pending.value.desc.link == l && s.handle && !s.inflight
    ensures var r := ReachTarget(env, s, l);
            r.err.NoError? && PutNext(r.flow.calls, ArriveLog(env, s, l), s.pending.value.tag, l)
  {
    hide Transition, LinkFails, TryPending, ArriveLog;
    var aimed := Sync(s).(target := Some(l));
    AimAlike(env, s, aimed, l);
    ArriveCalls(env, aimed, l);
    TryPutsFirst(env, CancelWait(Transition(env, aimed, l, false).flow));
  }

  lemma AimSync(s: Flow, t: Flow)
    requires t == Sync(s).(target := t.target)
    ensures Sync(t).current == Sync(s).current && t.policy == s.policy && t.handle == s.handle
    ensures t.count == s.count && t.calls == s.calls
  {
  }

  lemma AimAlike(env: Env, s: Flow, t: Flow, l: Link)
    requires t == Sync(s).(target := t.target)
    ensures LinkFails(env, t, l) == LinkFails(env, s, l) && ArriveLog(env, t, l) == ArriveLog(env, s, l)
  {
    AimSync(s, t);
    hide Sync, SetupLog;
    LinkFailsAlike(env, s, t, l);
    SetupAlike(env, s, t, l, RestartLog(env, s, l), s.count + if Sync(s).current.Some? then 1 else 0);
  }

  /** Without anything to send, a granted move to an open link ends with no wait and no target missed. */
  lemma ReachArrives(env: Env, s: Flow, l: Link)
    requires !LinkFails(env, s, l) && Open(s, l) && s.pending.None?
    ensures var r := ReachTarget(env, s, l);
            && r.err.NoError? && r.flow.calls == ArriveLog(env, s, l)
            && r.flow.stage.Idle? && !r.flow.timer && r.flow.pending.None?
  {
    hide Transition, LinkFails, ArriveLog, TryPending;
    var aimed := Sync(s).(target := Some(l));
    AimAlike(env, s, aimed, l);
    ArriveCalls(env, aimed, l);
    TryNothing(env, CancelWait(Transition(env, aimed, l, false).flow));
  }

  // ---------------------------------------------------------------- falling back

  /** The fallback order: a reported link before any other, BLE before the rest of the reported ones and
      LoRa before FSK; with none left that is reported, FSK, and LoRa only after FSK and once the time
      is known. */
  lemma NextLinkExactly(up: LinkSet, time: bool, tried: LinkSet, l: Link)
    ensures Candidate(up, time, tried) == Some(l) <==> NextLink(up, time, tried, l)
  {
  }

  /** From s to t the flow moved on to link l, with the message tag: its first calls are the stop and
      the start that lead there, or to FSK on the way to LoRa; when these are granted it waits for the
      link, or puts the message on it. */
  ghost predicate MovedOn(env: Env, s: Flow, t: Flow, tag: nat, l: Link) {
    var goal := FirstStop(l, s.time);
    && Begins(t.calls, MoveLog(env, s, goal))
    && (!LinkFails(env, s, goal) ==>
          if Open(s, l) then PutNext(t.calls, ArriveLog(env, s, l), tag, l)
          else
            && WaitsFor(t, l, WaitFor(goal)) && !t.inflight && t.retries == NO_RETRIES
            && t.pending.Some? && t.pending.value.tag == tag && t.pending.value.desc.link == l
            && t.pending.value.tried.Has(l))
  }

  lemma MovedAlike(env: Env, s: Flow, s': Flow, t: Flow, t': Flow, tag: nat, l: Link)
    requires MovedOn(env, s, t, tag, l)
    requires s'.status == s.status && s'.config == s.config && s'.current == s.current && s'.time == s.time
    requires s'.count == s.count && s'.calls == s.calls && s'.policy == s.policy && s'.handle == s.handle
    requires t'.calls == t.calls && t'.pending == t.pending && t'.stage == t.stage && t'.timer == t.timer
    requires t'.target == t.target && t'.inflight == t.inflight && t'.retries == t.retries
    ensures MovedOn(env, s', t', tag, l)
  {
    hide LinkFails, ArriveLog, MoveLog;
    ArriveAlike(env, s, s', FirstStop(l, s.time));
    ArriveAlike(env, s, s', l);
  }

  /** Reaching a link for a message that was just moved to it, or just handed over for it. */
  lemma ReachMoves(env: Env, s: Flow, l: Link)
    requires s.pending.Some? && s.pending.value.desc.link == l && s.pending.value.tried.Has(l)
    requires s.handle && !s.inflight && s.retries == NO_RETRIES
    ensures MovedOn(env, s, ReachTarget(env, s, l).flow, s.pending.value.tag, l)
  {
    hide ReachTarget, LinkFails, ArriveLog, MoveLog;
    ReachBegins(env, s, l);
    if !LinkFails(env, s, FirstStop(l, s.time)) {
      if Open(s, l) {
        ReachSends(env, s, l);
      } else {
        ReachWaits(env, s, l);
      }
    }
  }

  /** Giving up a link for the next one in the order. */
  lemma FallBackMoves(env: Env, s: Flow, l: Link)
    requires s.pending.Some? && s.pending.value.allow && s.pending.value.tried.Has(s.pending.value.desc.link)
    requires s.handle && NextLink(s.status.up, s.time, s.pending.value.tried, l)
    ensures !LinkFails(env, s, FirstStop(l, s.time)) ==>
              MovedOn(env, s, FallBackOrFail(env, s), s.pending.value.tag, l)
    ensures Begins(FallBackOrFail(env, s).calls, MoveLog(env, s, FirstStop(l, s.time)))
  {
    hide ReachTarget, LinkFails, Sync, MovedOn, ArriveLog, MoveLog;
    NextLinkExactly(s.status.up, s.time, s.pending.value.tried, l);
    MarkedAlready(s);
    var switched := SwitchTo(s, l);
    assert SelectFallback(env, s) == FallbackTo(env, s, l);
    var r := ReachTarget(env, switched, l);
    ReachMoves(env, switched, l);
    ReachFails(env, switched, l);
    ArriveAlike(env, s, switched, FirstStop(l, s.time));
    ReachBegins(env, switched, l);
    LogAlike(r.flow);
    if r.err.NoError? {
      MovedAlike(env, switched, s, r.flow, FallBackOrFail(env, s), s.pending.value.tag, l);
    }
  }

  lemma LogAlike(s: Flow)
    ensures var t := LogStatus(s);
            && t.calls == s.calls && t.pending == s.pending && t.stage == s.stage && t.timer == s.timer
            && t.target == s.target && t.inflight == s.inflight && t.retries == s.retries
            && t.mode == s.mode && t.handle == s.handle && t.status == s.status && t.time == s.time
            && t.count == s.count
  {
  }

  /** A refused put moves a message that may fall back to the next link. */
  lemma RefusedMovesOn(env: Env, s: Flow, l: Link)
    requires Sendable(s) && s.handle && !Grants(env, s.count)
    requires s.pending.value.allow && s.pending.value.tried.Has(s.pending.value.desc.link)
    requires NextLink(s.status.up, s.time, s.pending.value.tried, l)
    ensures var put := SidPut(env, s).flow;
            !LinkFails(env, put, FirstStop(l, s.time)) ==>
              MovedOn(env, put, TryPending(env, s), s.pending.value.tag, l)
  {
    hide ReachTarget, LinkFails, Sync, MovedOn, ArriveLog, MoveLog;
    var put := SidPut(env, s).flow;
    NextLinkExactly(s.status.up, s.time, s.pending.value.tried, l);
    MarkedAlready(put);
    var switched := SwitchTo(put, l);
    assert SelectFallback(env, put) == FallbackTo(env, put, l);
    var r := ReachTarget(env, switched, l);
    ReachMoves(env, switched, l);
    ReachFails(env, switched, l);
    ArriveAlike(env, put, switched, FirstStop(l, s.time));
    LogAlike(r.flow);
    if r.err.NoError? {
      MovedAlike(env, switched, put, r.flow, TryPending(env, s), s.pending.value.tag, l);
    }
  }

  /** A refused put of a message with no link left waits for its link again. */
  lemma RefusedWaitsAgain(env: Env, s: Flow)
    requires Sendable(s) && s.handle && !Grants(env, s.count)
    requires s.pending.value.tried.Has(s.pending.value.desc.link) && Exhausted(s)
    ensures var t, l := TryPending(env, s), s.pending.value.desc.link;
            WaitsFor(t, l, WaitFor(l)) && !t.inflight && t.pending.Some? && t.pending.value.desc.link == l
  {
    hide ReachTarget;
    var put := SidPut(env, s).flow;
    ExhaustedExactly(s);
    if s.pending.value.allow {
      MarkedAlready(put);
      assert SelectFallback(env, put) == Choice(put, false);
    }
  }

  /** A message that is dropped takes the flow with it: no wait, no target, and the stack is given back. */
  lemma DropEnds(env: Env, s: Flow)
    requires s.pending.Some? && FallBackOrFail(env, s).pending.None?
    ensures var t := FallBackOrFail(env, s);
            && !t.inflight && t.target.None? && t.stage.Idle? && !t.timer && !t.mode && !t.policy
            && t.retries.tx == 0 && t.notes == After(s.notes, Freed(s.pending.value.tag))
  {
    hide SelectFallback;
  }

  // ---------------------------------------------------------------- sessions

  /** Preparing a session without flow mode: an open handle is given up, the data checked, the stack
      initialised, and everything the flow knew of links, targets, retries and the time is gone. */
  lemma SessionStarts(env: Env, s: Flow)
    requires !s.mode
    ensures var r := PrepareSession(env, s);
            var closed := if s.handle then After(s.calls, Deinit) else s.calls;
            var n := s.count + if s.handle then 1 else 0;
            var checked := After(closed, CheckData);
            && (r.err.NoError? <==> Grants(env, n) && Grants(env, n + 1))
            && r.flow.calls == (if !Grants(env, n) then checked
                                else After(checked, if Grants(env, n + 1) then Session else Init))
            && r.flow.pending == s.pending && r.flow.notes == s.notes
            && (r.err.NoError? ==>
                  && r.flow.mode && r.flow.handle && !r.flow.time && !r.flow.policy && !r.flow.inflight
                  && r.flow.current.None? && r.flow.target.None? && r.flow.stage.Idle?
                  && r.flow.retries == NO_RETRIES && r.flow.status.up == NO_LINKS && r.flow.config.OtherMask?
                  && r.flow.count == n + 2)
            && (!r.err.NoError? ==>
                  !r.flow.mode && r.flow.handle == (Grants(env, n) && env.answer(n + 1).handle))
  {
  }

  /** Preparing a session that is open already does nothing: a send or a set prepares one first, and
      then does what it does in an open session. */
  lemma SessionFirst(env: Env, s: Flow, req: Request, target: Link)
    requires var p := PrepareSession(env, s);
             p.err.NoError? && p.flow.mode && p.flow.handle
    ensures var p := PrepareSession(env, s).flow;
            && Step(env, s, EvSend(req)) == Step(env, p, EvSend(req))
            && Step(env, s, EvSet(target)) == Step(env, p, EvSet(target))
  {
    hide Submit, Replace, AimAt;
  }

  // ---------------------------------------------------------------- sending

  /** The link that an automatic message takes: a reported one if there is any, BLE before LoRa before
      FSK, and FSK if there is none. */
  predicate AutoLink(up: LinkSet, l: Link) {
    && (up.ble <==> l.Ble?)
    && (up.lora && !up.ble <==> l.Lora?)
  }

  predicate Wants(s: Flow, req: Request, l: Link) {
    if req.want.Some? then req.want == Some(l) else AutoLink(s.status.up, l)
  }

  /** In an open session a message is put at once on its link if that is ready; otherwise the flow moves
      to the link. */
  lemma SendMoves(env: Env, s: Flow, req: Request, l: Link)
    requires s.mode && s.handle && Wants(s, req, l)
    ensures var t := Step(env, s, EvSend(req));
            && t.pending.Some? && t.pending.value.allow == (req.allow || req.want.None?)
            && t.pending.value.desc.kind == req.kind
    ensures var t := Step(env, s, EvSend(req));
            if LinkReady(s.status, l) then
              && PutNext(t.calls, s.calls, req.tag, l)
              && (Grants(env, s.count) ==> t.inflight && Holds(t, req.tag) && t.pending.value.desc.link == l
                                           && t.retries == s.retries && t.stage == s.stage)
            else MovedOn(env, s, t, req.tag, l)
  {
    hide TryPending, ReachTarget, LinkFails, ArriveLog, MoveLog, Sync, MovedOn, PutNext, FreePending;
    var held := Replace(s, req);
    HeldFrom(s, req, l);
    if LinkReady(s.status, l) {
      TryPutsFirst(env, held);
    } else {
      var reset := held.(retries := NO_RETRIES);
      ReachMoves(env, reset, l);
      var reached := ReachDiscarding(env, reset);
      LogAlike(reached);
      MovedAlike(env, reset, s, ReachTarget(env, reset, l).flow, FlowSend(env, s, req), req.tag, l);
    }
  }

  lemma HeldFrom(s: Flow, req: Request, l: Link)
    requires Wants(s, req, l)
    ensures var held := Replace(s, req);
            && held.pending == Some(Msg(req.tag, Desc(req.id, l, req.kind), req.allow || req.want.None?,
                                        NO_LINKS.With(l), 0))
            && held == s.(inflight := false, pending := held.pending, notes := held.notes)
  {
  }

  /** A refused session frees the new message and keeps the old one. */
  lemma SendRefused(env: Env, s: Flow, req: Request)
    requires !PrepareSession(env, s).err.NoError?
    ensures var t := Step(env, s, EvSend(req));
            t.pending == s.pending && t.notes == After(s.notes, Freed(req.tag))
            && t.calls == PrepareSession(env, s).flow.calls
  {
    hide PrepareSession;
  }

  /** A refused session is all that is left of a set: target, wait and message stay. */
  lemma SetRefused(env: Env, s: Flow, target: Link)
    requires !PrepareSession(env, s).err.NoError?
    ensures Step(env, s, EvSet(target)) == PrepareSession(env, s).flow
    ensures var t := Step(env, s, EvSet(target));
            t.pending == s.pending && t.target == s.target && t.stage == s.stage && t.timer == s.timer
            && t.retries == s.retries && t.notes == s.notes
  {
  }

  // ---------------------------------------------------------------- setting a target

  /** From s to t the flow set off for the target: its first calls lead there, or to FSK on the way to
      LoRa; it waits for the target unless that is open, and forgets its retries. */
  ghost predicate SetOff(env: Env, s: Flow, t: Flow, target: Link) {
    var goal := FirstStop(target, s.time);
    && Begins(t.calls, MoveLog(env, s, goal))
    && (!LinkFails(env, s, goal) && !Open(s, target) ==>
          WaitsFor(t, target, WaitFor(goal)) && t.retries == NO_RETRIES)
    && (!LinkFails(env, s, goal) && Open(s, target) && s.pending.None? ==>
          t.calls == ArriveLog(env, s, target) && t.stage.Idle? && !t.timer)
    && (LinkFails(env, s, goal) ==> t.target == Some(target) && t.stage == s.stage && t.timer == s.timer)
  }

  lemma SetMoves(env: Env, s: Flow, target: Link)
    requires s.mode && s.handle
    ensures SetOff(env, s, Step(env, s, EvSet(target)), target)
  {
    hide ReachTarget, LinkFails, ArriveLog, MoveLog, Sync;
    var goal := FirstStop(target, s.time);
    var reset := NoteRetarget(s).(retries := NO_RETRIES);
    ArriveAlike(env, s, reset, goal);
    ArriveAlike(env, s, reset, target);
    ReachBegins(env, reset, target);
    LogAlike(ReachTarget(env, reset, target).flow);
    if LinkFails(env, reset, goal) {
      ReachRefused(env, reset, target);
    } else if !Open(s, target) {
      ReachWaits(env, reset, target);
    } else if s.pending.None? {
      ReachArrives(env, reset, target);
    }
  }

  /** A switch goes from FSK to LoRa, from LoRa to BLE, and from anything else to FSK. */
  lemma SwitchMoves(env: Env, s: Flow)
    requires s.mode && s.handle
    ensures var seen := Sync(s).current;
            var t := Step(env, s, EvSwitch);
            && (seen == Some(Fsk) ==> SetOff(env, s, t, Lora))
            && (seen == Some(Lora) ==> SetOff(env, s, t, Ble))
            && (seen == Some(Ble) || seen == None ==> SetOff(env, s, t, Fsk))
  {
    hide FlowSet, SetOff;
    var target := SwitchTarget(s);
    SetMoves(env, Sync(s), target);
    SetOffAlike(env, s, FlowSwitch(env, s), target);
  }

  lemma SetOffAlike(env: Env, s: Flow, t: Flow, target: Link)
    requires SetOff(env, Sync(s), t, target)
    ensures SetOff(env, s, t, target)
  {
    hide LinkFails, ArriveLog, MoveLog;
    AimAlike(env, s, Sync(s), FirstStop(target, s.time));
    AimAlike(env, s, Sync(s), target);
    assert Sync(Sync(s)).current == Sync(s).current by { SyncAlike(Sync(s), Sync(s)); }
    MoveAlike(env, s, Sync(s), FirstStop(target, s.time));
  }

  // ---------------------------------------------------------------- timeouts

  /** The retries of the link that the stage waits for are used up. */
  predicate Spent(env: Env, s: Flow) {
    && (s.stage.WaitBle? ==> s.retries.ble >= env.maxBle)
    && (s.stage.WaitFsk? ==> s.retries.fsk >= env.maxFsk)
    && (s.stage.WaitLora? ==> s.retries.lora >= env.maxLora)
  }

  /** A timeout without a retry left moves a message that may fall back to the next link. */
  lemma TimeoutMovesOn(env: Env, s: Flow, l: Link)
    requires Shape(s) && Fires(s) && Spent(env, s)
    requires s.pending.Some? && s.pending.value.allow
    requires NextLink(s.status.up, s.time, s.pending.value.tried, l)
    ensures var t := Step(env, s, EvTimeout);
            && Begins(t.calls, MoveLog(env, s, FirstStop(l, s.time)))
            && (!LinkFails(env, s, FirstStop(l, s.time)) ==> MovedOn(env, s, t, s.pending.value.tag, l))
  {
    hide FallBackOrFail, LinkFails, ArriveLog, MoveLog, MovedOn, NextLink;
    var noted := NoteTimeout(s);
    FallBackMoves(env, noted, l);
    ArriveAlike(env, s, noted, FirstStop(l, s.time));
    if !LinkFails(env, s, FirstStop(l, s.time)) {
      var t := Timeout(env, s);
      MovedAlike(env, noted, s, t, t, s.pending.value.tag, l);
    }
  }

  /** With a retry left the link of the stage is stopped and started again, and waited for once more. */
  lemma TimeoutRestarts(env: Env, s: Flow)
    requires Shape(s) && Fires(s) && !Spent(env, s)
    ensures var t := Step(env, s, EvTimeout);
            var l := if s.stage.WaitBle? then Ble else if s.stage.WaitFsk? then Fsk else Lora;
            var n := s.count + if Sync(s).current.Some? then 1 else 0;
            && Begins(t.calls, RestartLog(env, s, l))
            && ((Sync(s).current.Some? ==> Grants(env, s.count)) && Grants(env, n) ==>
                  && t.stage == s.stage && t.timer && t.target == s.target && t.pending == s.pending
                  && t.retries == (match l
                                   case Ble => s.retries.(ble := s.retries.ble + 1)
                                   case Fsk => s.retries.(fsk := s.retries.fsk + 1)
                                   case Lora => s.retries.(lora := s.retries.lora + 1)))
  {
    hide FallBackOrFail, Transition, RestartLog, Sync;
    var l := StageLink(s.stage);
    var counted := NoteTimeout(s).(retries := CountRetry(s.retries, l));
    SyncAlike(s, counted);
    RestartAlike(env, s, counted, l);
    TransitionBegins(env, counted, l, true);
    RestartCalls(env, counted, l, true);
    var r := Transition(env, counted, l, true);
    FailBegins(env, r.flow);
    LogAlike(Arm(r.flow, s.stage));
    BeginsTrans(FallBackOrFail(env, r.flow).calls, r.flow.calls, RestartLog(env, s, l));
  }

  lemma RestartAlike(env: Env, s: Flow, t: Flow, goal: Link)
    requires Sync(t).current == Sync(s).current && t.count == s.count && t.calls == s.calls
    ensures RestartLog(env, t, goal) == RestartLog(env, s, goal)
  {
    hide Sync;
  }

  lemma FailBegins(env: Env, s: Flow)
    ensures Begins(FallBackOrFail(env, s).calls, s.calls)
  {
    hide SelectFallback;
    FallbackBegins(env, s);
  }

  // ---------------------------------------------------------------- results

  /** A reported success completes the message and clears the count of its retries; links, target and
      wait stay as they are. */
  lemma SuccessCompletes(env: Env, s: Flow, res: Result)
    requires Matches(s, res) && res.success
    ensures var t, m := Step(env, s, EvResult(res)), s.pending.value;
            && t.pending.None? && !t.inflight && t.retries == s.retries.(tx := 0)
            && t.calls == s.calls && t.count == s.count
            && t.notes == After(After(s.notes, Settle(m.attempt)), Freed(m.tag))
            && t.mode && t.handle == s.handle && t.stage == s.stage && t.timer == s.timer && t.target == s.target
            && t.status == s.status && t.time == s.time && t.current == s.current && t.config == s.config
  {
  }

  /** A reported failure with a retry left puts the same message once more on its link, at once if the
      link is ready, and otherwise goes to wait for the link. */
  lemma FailureRetries(env: Env, s: Flow, res: Result)
    requires Shape(s) && Matches(s, res) && !res.success && s.retries.tx < MAX_TX_RETRIES
    ensures var t, m := Step(env, s, EvResult(res)), s.pending.value;
            var l := m.desc.link;
            && (LinkReady(s.status, l) ==>
                  && PutNext(t.calls, s.calls, m.tag, l)
                  && (Grants(env, s.count) ==>
                        && t.inflight && t.retries == s.retries.(tx := s.retries.tx + 1)
                        && Holds(t, m.tag) && t.pending.value.allow == m.allow && t.mode && t.handle == s.handle
                        && t.pending.value.desc == m.desc.(id := env.answer(s.count).id)
                        && t.status == s.status && t.time == s.time && t.count == s.count + 1
                        && t.calls == After(s.calls, Put(s.count, m.tag, t.pending.value.desc, true))))
            && (!LinkReady(s.status, l) ==>
                  && Begins(t.calls, MoveLog(env, s, FirstStop(l, s.time)))
                  && (!LinkFails(env, s, FirstStop(l, s.time)) ==>
                        && WaitsFor(t, l, WaitFor(FirstStop(l, s.time))) && t.pending == s.pending
                        && t.retries == s.retries.(tx := s.retries.tx + 1)))
  {
    hide TryPending, ReachTarget, LinkFails, MoveLog, Sync, PutNext;
    var l := s.pending.value.desc.link;
    var settled := Note1(s, Settle(s.pending.value.attempt)).(inflight := false);
    var again := settled.(retries := s.retries.(tx := s.retries.tx + 1), target := Some(l));
    if LinkReady(s.status, l) {
      TryPutsFirst(env, again);
      LogAlike(TryPending(env, again));
    } else {
      ArriveAlike(env, s, again, FirstStop(l, s.time));
      ReachBegins(env, again, l);
      LogAlike(ReachDiscarding(env, again));
      if !LinkFails(env, again, FirstStop(l, s.time)) {
        ReachWaits(env, again, l);
      }
    }
  }

  /** A last failure moves a message that may fall back to the next link. */
  lemma FailureMovesOn(env: Env, s: Flow, res: Result, l: Link)
    requires Shape(s) && Matches(s, res) && !res.success && s.retries.tx >= MAX_TX_RETRIES
    requires s.pending.value.allow && NextLink(s.status.up, s.time, s.pending.value.tried, l)
    ensures var t := Step(env, s, EvResult(res));
            && Begins(t.calls, MoveLog(env, s, FirstStop(l, s.time)))
            && (!LinkFails(env, s, FirstStop(l, s.time)) ==> MovedOn(env, s, t, s.pending.value.tag, l))
  {
    hide FallBackOrFail, LinkFails, ArriveLog, MoveLog, MovedOn, NextLink, RetrySend;
    var settled := Note1(s, Settle(s.pending.value.attempt)).(inflight := false);
    FallBackMoves(env, settled, l);
    ArriveAlike(env, s, settled, FirstStop(l, s.time));
    if !LinkFails(env, s, FirstStop(l, s.time)) {
      var t := TxResult(env, s, res);
      MovedAlike(env, settled, s, t, t, s.pending.value.tag, l);
    }
  }

  /** The message in flight failed. */
  function Failed(s: Flow): Event
    requires s.pending.Some?
  {
    EvResult(Result(s.pending.value.attempt, false, s.pending.value.desc))
  }

  lemma FailurePutsAgain(env: Env, s: Flow, tag: nat, left: nat)
    requires Shape(s) && s.inflight && Holds(s, tag) && LinkReady(s.status, s.pending.value.desc.link)
    requires s.retries.tx + left == MAX_TX_RETRIES && left > 0 && Grants(env, s.count)
    ensures var t := Step(env, s, Failed(s));
            && Shape(t) && t.inflight && Holds(t, tag) && t.pending.value.desc.link == s.pending.value.desc.link
            && t.status == s.status && t.retries.tx == s.retries.tx + 1 && t.count == s.count + 1
            && Accepts(t.calls, tag) == Accepts(s.calls, tag) + 1
  {
    hide TxResult;
    FailureRetries(env, s, Failed(s).res);
    ResultShape(env, s, Failed(s).res);
  }

  lemma ResultShape(env: Env, s: Flow, res: Result)
    requires Shape(s) && Matches(s, res) && !res.success && s.retries.tx < MAX_TX_RETRIES
    requires LinkReady(s.status, s.pending.value.desc.link) && Grants(env, s.count)
    ensures Shape(TxResult(env, s, res))
  {
  }

  /** After a success the next message on a ready link has its own two retries: whatever the count was
      before, it is put three times when its first two results are failures. */
  lemma SuccessRenewsRetries(env: Env, s: Flow, res: Result, req: Request, l: Link)
    requires Shape(s) && Matches(s, res) && res.success && (forall n :: Grants(env, n))
    requires Wants(s, req, l) && LinkReady(s.status, l)
    ensures var a := FlowSend(env, TxResult(env, s, res), req);
            && a.pending.Some?
            && var b := Step(env, a, Failed(a));
               && b.pending.Some?
               && var c := Step(env, b, Failed(b));
                  && c.inflight && Holds(c, req.tag) && c.pending.value.desc.link == l
                  && Accepts(c.calls, req.tag) == Accepts(s.calls, req.tag) + 3
  {
    hide TxResult, FlowSend, PutNext, Wants;
    SuccessCompletes(env, s, res);
    var done := TxResult(env, s, res);
    assert Wants(done, req, l) by { WantsAlike(s, done, req, l); }
    SendPutsNow(env, done, req, l);
    var a := FlowSend(env, done, req);
    FailurePutsAgain(env, a, req.tag, 2);
    FailurePutsAgain(env, Step(env, a, Failed(a)), req.tag, 1);
  }

  lemma WantsAlike(s: Flow, t: Flow, req: Request, l: Link)
    requires Wants(s, req, l) && t.status == s.status
    ensures Wants(t, req, l)
  {
  }

  lemma SendPutsNow(env: Env, s: Flow, req: Request, l: Link)
    requires Shape(s) && s.mode && Wants(s, req, l) && LinkReady(s.status, l) && Grants(env, s.count)
    ensures var t := FlowSend(env, s, req);
            && Shape(t) && t.inflight && Holds(t, req.tag) && t.pending.value.desc.link == l
            && t.retries == s.retries && t.status == s.status && t.count == s.count + 1
            && Accepts(t.calls, req.tag) == Accepts(s.calls, req.tag) + 1
  {
    hide TryPending, PutNext, Sync, FreePending, Wants;
    HeldFrom(s, req, l);
    TryPutsFirst(env, Replace(s, req));
    assert TryPending(env, Replace(s, req)).mode;
  }

  // ---------------------------------------------------------------- statuses

  /** The calls logged by the status itself. */
  ghost function StatusLog(s: Flow, st: Status): Log<Call> {
    if st.synced then After(s.calls, Synced) else s.calls
  }

  /** A LoRa target that waits on FSK: a status that reports FSK up stops FSK and starts LoRa exactly if
      the time is known by then, and the flow goes on to wait for LoRa if both are granted and for FSK
      if one is refused. */
  lemma StatusLeavesFsk(env: Env, s: Flow, st: Status)
    requires s.mode && s.handle && s.target == Some(Lora)
    requires st.ready && st.up.fsk && !st.up.lora
    requires s.pending.Some? ==> s.pending.value.desc.link == Lora
    ensures var t, log := Step(env, s, EvStatus(st)), StatusLog(s, st);
            var granted := Grants(env, s.count) && Grants(env, s.count + 1);
            && t.pending == s.pending && t.inflight == s.inflight && t.target == Some(Lora)
            && t.mode && t.handle && t.time == (s.time || st.synced)
            && (s.time || st.synced ==>
                  && t.calls == (if !Grants(env, s.count) then After(log, Stop(Fsk, false))
                                 else if !granted then After(After(log, Stop(Fsk, true)), Start(Lora, false))
                                 else SetupLog(env, s, Lora, After(After(log, Stop(Fsk, true)), Start(Lora, true)),
                                               s.count + 1))
                  && t.stage == (if granted then WaitLora else WaitFsk) && t.timer
                  && (granted ==> t.current == Some(Lora)))
            && (!(s.time || st.synced) ==> t.calls == log && t.stage == s.stage && t.timer == s.timer)
  {
    hide TryPending, Transition, SetupLog, RestartLog, CacheTime;
    var synced := Sync(s.(status := st));
    var timed := CacheTime(synced);
    TimeCached(synced);
    var left := CancelWait(timed);
    SeenExactly(s.(status := st));
    SeenExactly(left);
    RestartCalls(env, left, Lora, false);
    LeavesLog(env, s, left, StatusLog(s, st));
    TryNothing(env, Arrive(LeaveFsk(env, timed)));
  }

  lemma TimeCached(s: Flow)
    ensures CacheTime(s) == s.(time := s.time || s.status.synced,
                               calls := if s.status.synced then After(s.calls, Synced) else s.calls)
  {
  }

  lemma LeavesLog(env: Env, s: Flow, left: Flow, log: Log<Call>)
    requires Sync(left).current == Some(Fsk) && left.count == s.count && left.calls == log
    requires left.policy == s.policy && left.handle == s.handle
    ensures RestartLog(env, left, Lora) ==
              (if !Grants(env, s.count) then After(log, Stop(Fsk, false))
               else After(After(log, Stop(Fsk, true)), Start(Lora, Grants(env, s.count + 1))))
    ensures SetupLog(env, left, Lora, RestartLog(env, left, Lora), s.count + 1) ==
              SetupLog(env, s, Lora, RestartLog(env, left, Lora), s.count + 1)
  {
    hide Sync;
    SetupAlike(env, s, left, Lora, RestartLog(env, left, Lora), s.count + 1);
  }

  /** The flow does not leave FSK for LoRa with this status. */
  predicate Keeps(s: Flow, st: Status) {
    s.target == Some(Lora) && LinkReady(st, Fsk) && (s.time || st.synced) ==> st.up.lora
  }

  /** Such a status on its way to the message: stored, the time noted, and the wait ended if the target
      is ready. */
  lemma StatusStored(env: Env, s: Flow, st: Status) returns (a: Flow)
    requires s.mode && s.handle && Keeps(s, st)
    ensures NewStatus(env, s, st) == TryPending(env, a)
    ensures a.pending == s.pending && a.inflight == s.inflight && a.status == st && a.handle
    ensures a.calls == StatusLog(s, st) && a.count == s.count
    ensures if s.target.Some? && LinkReady(st, s.target.value) then a.target.None? && a.stage.Idle? && !a.timer
            else a.target == s.target && a.stage == s.stage && a.timer == s.timer
  {
    hide TryPending, Transition, CacheTime;
    var synced := Sync(s.(status := st));
    var timed := CacheTime(synced);
    TimeCached(synced);
    SeenExactly(s.(status := st));
    assert LeaveFsk(env, timed) == timed;
    a := Arrive(timed);
  }

  /** Any other status: a ready target ends the wait, and a message whose link is ready is put at once;
      links are neither stopped nor started for it. */
  lemma StatusArrives(env: Env, s: Flow, st: Status)
    requires s.mode && s.handle && Keeps(s, st)
    ensures var t, log := Step(env, s, EvStatus(st)), StatusLog(s, st);
            var arrived := s.target.Some? && LinkReady(st, s.target.value);
            var sends := s.pending.Some? && !s.inflight && LinkReady(st, s.pending.value.desc.link);
            && (sends ==> PutNext(t.calls, log, s.pending.value.tag, s.pending.value.desc.link))
            && (sends && Grants(env, s.count) ==>
                  t.inflight && Holds(t, s.pending.value.tag) && t.calls.After? && t.calls.before == log)
            && (!sends ==> t.calls == log && t.pending == s.pending && t.inflight == s.inflight)
            && (!sends || Grants(env, s.count) ==>
                  if arrived then t.target.None? && t.stage.Idle? && !t.timer
                  else t.target == s.target && t.stage == s.stage && t.timer == s.timer)
  {
    hide NewStatus, TryPending, PutNext, StatusLog;
    var a := StatusStored(env, s, st);
    if Sendable(a) {
      TryPutsFirst(env, a);
    } else {
      TryNothing(env, a);
    }
  }

  /** A whole way to LoRa on a stack that grants every call: a LoRa message bootstraps on FSK, a status
      that reports FSK and the time moves the flow to LoRa, and a status that reports LoRa puts the
      message there. */
  lemma LoraMessageGoes(env: Env, config: Config, req: Request, first: Status, second: Status)
    requires (forall n :: Grants(env, n)) && req.want == Some(Lora)
    requires first.ready && first.synced && first.up.fsk && !first.up.lora
    requires second.ready && second.up.lora
    ensures var a := Run(env, Boot(env, config), [EvSend(req)]);
            var b := Run(env, Boot(env, config), [EvSend(req), EvStatus(first)]);
            var c := Run(env, Boot(env, config), [EvSend(req), EvStatus(first), EvStatus(second)]);
            && Begins(a.calls, After(After(After(Nil, CheckData), Session), Start(Fsk, true)))
            && Begins(b.calls, After(After(After(a.calls, Synced), Stop(Fsk, true)), Start(Lora, true)))
            && PutNext(c.calls, StatusLog(b, second), req.tag, Lora)
            && c.inflight && Holds(c, req.tag)
  {
    hide FlowSend, NewStatus, SetupLog, PutNext, PrepareSession, StatusLog;
    var boot := Boot(env, config);
    var a, b, c := FlowSend(env, boot, req), NewStatus(env, FlowSend(env, boot, req), first),
                   NewStatus(env, NewStatus(env, FlowSend(env, boot, req), first), second);
    SendBootstraps(env, boot, req);
    StatusLeavesFsk(env, a, first);
    var log := After(After(After(a.calls, Synced), Stop(Fsk, true)), Start(Lora, true));
    SetupBegins(env, a, Lora, log, a.count + 1);
    assert StatusLog(a, first) == After(a.calls, Synced) by { SyncedLog(a, first); }
    StatusArrives(env, b, second);
    RunStep(env, boot, EvSend(req), []);
    RunStep(env, boot, EvSend(req), [EvStatus(first)]);
    RunStep(env, a, EvStatus(first), []);
    assert [EvSend(req)] + [] == [EvSend(req)] && [EvStatus(first)] + [] == [EvStatus(first)];
    assert [EvSend(req)] + [EvStatus(first)] == [EvSend(req), EvStatus(first)];
    RunThree(env, boot, EvSend(req), EvStatus(first), EvStatus(second));
  }

  lemma SyncedLog(s: Flow, st: Status)
    requires st.synced
    ensures StatusLog(s, st) == After(s.calls, Synced)
  {
  }

  /** A LoRa message that opens the session starts FSK and waits for it. */
  lemma SendBootstraps(env: Env, s: Flow, req: Request)
    requires !s.mode && !s.handle && (forall n :: Grants(env, n)) && req.want == Some(Lora)
    ensures var t := FlowSend(env, s, req);
            && Begins(t.calls, After(After(After(s.calls, CheckData), Session), Start(Fsk, true)))
            && WaitsFor(t, Lora, WaitFsk) && !t.inflight && Holds(t, req.tag) && t.pending.value.desc.link == Lora
            && t.mode && t.handle && !t.time
  {
    hide FlowSend, PrepareSession, SetupLog;
    SessionStarts(env, s);
    SessionFirst(env, s, req, Lora);
    var p := PrepareSession(env, s).flow;
    SeenExactly(p);
    SendMoves(env, p, req, Lora);
    SendSession(env, p, req);
  }

  lemma SendSession(env: Env, s: Flow, req: Request)
    requires s.mode && s.handle
    ensures var t := FlowSend(env, s, req);
            t.mode && t.handle && t.time == s.time && t.status == s.status
  {
    hide TryPending, ReachTarget, FreePending;
    HeldFrom(s, req, Accept(s, req).desc.link);
  }

  /** A status of a stack that is not ready, or with no link up, moves nothing; and one that comes
      outside flow mode is only stored. */
  lemma StatusQuiet(env: Env, s: Flow, st: Status)
    ensures var t := Step(env, s, EvStatus(st));
            && (!s.mode || !s.handle ==> t == s.(status := st))
            && (!st.ready || st.up == NO_LINKS ==>
                  && t.stage == s.stage && t.timer == s.timer && t.target == s.target
                  && t.pending == s.pending && t.inflight == s.inflight && t.retries == s.retries
                  && (s.mode && s.handle ==> t.calls == StatusLog(s, st) && t.time == (s.time || st.synced)))
  {
    hide TryPending, Transition, CacheTime;
    var timed := CacheTime(Sync(s.(status := st)));
    TimeCached(Sync(s.(status := st)));
    if s.mode && s.handle && (!st.ready || st.up == NO_LINKS) {
      assert Arrive(LeaveFsk(env, timed)) == timed;
      TryNothing(env, timed);
    }
  }

  // ---------------------------------------------------------------- cancel and the raw commands

  /** A report brings the current link up to date and touches nothing else. */
  lemma ReportSees(env: Env, s: Flow)
    ensures var t, up := Step(env, s, EvReport), s.status.up;
            && t == s.(current := t.current)
            && (up.lora ==> t.current == Some(Lora))
            && (up.fsk && !up.lora ==> t.current == Some(Fsk))
            && (up.ble && !up.fsk && !up.lora ==> t.current == Some(Ble))
  {
  }

  /** A cancel frees the pending message, ends the wait and gives the stack back; it asks nothing of it. */
  lemma CancelEnds(env: Env, s: Flow)
    ensures var t := Step(env, s, EvCancel);
            && t.pending.None? && !t.inflight && t.target.None? && t.stage.Idle? && !t.timer && !t.mode && !t.policy
            && t.calls == s.calls && t.handle == s.handle && t.retries == s.retries
            && t.notes == (if s.pending.Some? then After(s.notes, Freed(s.pending.value.tag)) else s.notes)
  {
  }

  /** Nothing of the flow is left. */
  ghost predicate Blank(env: Env, s: Flow, t: Flow) {
    && t.pending.None? && !t.inflight && !t.mode && !t.time && !t.policy
    && t.current.None? && t.target.None? && t.stage.Idle? && !t.timer && t.retries == NO_RETRIES
    && t.status == Status(env.zeroReady, false, NO_LINKS)
    && t.notes == (if s.pending.Some? then After(s.notes, Freed(s.pending.value.tag)) else s.notes)
  }

  lemma ResetBlank(env: Env, s: Flow)
    ensures Blank(env, s, Reset(env, s)) && Reset(env, s).calls == s.calls && Reset(env, s).count == s.count
    ensures Reset(env, s).handle == s.handle
  {
  }

  /** Every raw command ends the flow.  Init checks the data before it initialises the stack. */
  lemma InitEnds(env: Env, s: Flow, config: Config)
    ensures var t := Step(env, s, EvInit(config));
            && Blank(env, s, t) && t.config == config
            && t.calls == (if Grants(env, s.count) then After(After(s.calls, CheckData), Init)
                           else After(s.calls, CheckData))
            && t.handle == if Grants(env, s.count) then Grants(env, s.count + 1) || env.answer(s.count + 1).handle
                           else s.handle
  {
    hide Reset;
    ResetBlank(env, s);
  }

  /** Deinit gives up the handle. */
  lemma DeinitEnds(env: Env, s: Flow)
    ensures var t := Step(env, s, EvDeinit);
            Blank(env, s, t) && !t.handle && t.calls == After(s.calls, Deinit)
  {
    hide Reset;
    ResetBlank(env, Ask(env, s, Deinit).flow.(handle := false));
  }

  /** Raw start and stop keep the handle. */
  lemma StartStopEnds(env: Env, s: Flow)
    ensures var t := Step(env, s, EvStartStop);
            Blank(env, s, t) && t.handle == s.handle && t.calls == After(s.calls, Raw)
  {
    hide Reset;
    ResetBlank(env, s);
  }
}

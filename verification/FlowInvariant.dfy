/** What every reachable state of the hello flow satisfies, and the proof that the
    mutually recursive send functions keep it.  The handlers follow in FlowSteps. */
module FlowInvariant {
  import opened Links
  import opened FlowModel

  // ---------------------------------------------------------------- reading the logs

  /** A TIME_SYNCED status was handled since the flow session was created. */
  ghost predicate TimeKnown(calls: Log<Call>) {
    match calls
    case Nil => false
    case After(before, last) => last.Synced? || (!last.Session? && TimeKnown(before))
  }

  /** No `sid_start` of the flow carries the LoRa bit before the time is known. */
  ghost predicate LoraAfterTime(calls: Log<Call>) {
    match calls
    case Nil => true
    case After(before, last) =>
      LoraAfterTime(before) && (last.Start? && last.link.Lora? ==> TimeKnown(before))
  }

  /** How often the stack accepted message tag. */
  ghost function Accepts(calls: Log<Call>, tag: nat): nat {
    match calls
    case Nil => 0
    case After(before, last) =>
      Accepts(before, tag) + if last.Put? && last.tag == tag && last.ok then 1 else 0
  }

  /** Every `sid_put_msg` of message tag, accepted or not, used link l. */
  ghost predicate PutsOnlyOn(calls: Log<Call>, tag: nat, l: Link) {
    match calls
    case Nil => true
    case After(before, last) =>
      PutsOnlyOn(before, tag, l) && (last.Put? && last.tag == tag ==> last.desc.link == l)
  }

  /** Attempt no of message tag was accepted under descriptor d. */
  ghost predicate Accepted(calls: Log<Call>, no: nat, tag: nat, d: Desc) {
    match calls
    case Nil => false
    case After(before, last) => last == Put(no, tag, d, true) || Accepted(before, no, tag, d)
  }

  /** The puts are numbered below n, each above the ones before it. */
  ghost predicate NumberedBelow(calls: Log<Call>, n: nat) {
    match calls
    case Nil => true
    case After(before, last) =>
      if last.Put? then last.no < n && NumberedBelow(before, last.no) else NumberedBelow(before, n)
  }

  ghost function Retargets(notes: Log<Note>, tag: nat): nat {
    match notes
    case Nil => 0
    case After(before, last) => Retargets(before, tag) + if last == Retarget(tag) then 1 else 0
  }

  ghost function Discards(notes: Log<Note>, tag: nat): nat {
    match notes
    case Nil => 0
    case After(before, last) => Discards(before, tag) + if last == Discard(tag) then 1 else 0
  }

  ghost function Timeouts(notes: Log<Note>, tag: nat): nat {
    match notes
    case Nil => 0
    case After(before, last) => Timeouts(before, tag) + if last == TimedOut(tag) then 1 else 0
  }

  ghost function Frees(notes: Log<Note>, tag: nat): nat {
    match notes
    case Nil => 0
    case After(before, last) => Frees(before, tag) + if last == Freed(tag) then 1 else 0
  }

  ghost function Settles(notes: Log<Note>, no: nat): nat {
    match notes
    case Nil => 0
    case After(before, last) => Settles(before, no) + if last == Settle(no) then 1 else 0
  }

  ghost predicate SettledBelow(notes: Log<Note>, n: nat) {
    match notes
    case Nil => true
    case After(before, last) => SettledBelow(before, n) && (last.Settle? ==> last.no < n)
  }

  lemma {:induction false} NoSettleAbove(notes: Log<Note>, n: nat, no: nat)
    requires SettledBelow(notes, n) && n <= no
    ensures Settles(notes, no) == 0 && SettledBelow(notes, no)
  {
    match notes
    case Nil =>
    case After(before, _) => NoSettleAbove(before, n, no);
  }

  lemma {:induction false} NumberedMore(calls: Log<Call>, n: nat, m: nat)
    requires NumberedBelow(calls, n) && n <= m
    ensures NumberedBelow(calls, m)
  {
    match calls
    case Nil =>
    case After(before, last) =>
      if !last.Put? {
        NumberedMore(before, n, m);
      }
  }

  // ---------------------------------------------------------------- the invariant

  ghost predicate Holds(s: Flow, tag: nat) {
    s.pending.Some? && s.pending.value.tag == tag
  }

  ghost predicate Shape(s: Flow) {
    && (s.inflight ==> s.pending.Some?)
    && (s.pending.Some? ==> s.mode && s.pending.value.tried.Has(s.pending.value.desc.link))
    && (s.mode ==> s.handle)
    && (!s.stage.Idle? ==> s.mode && s.target.Some?)
    && s.retries.tx <= MAX_TX_RETRIES
  }

  ghost predicate TimeSafe(s: Flow) {
    (s.time ==> TimeKnown(s.calls)) && LoraAfterTime(s.calls)
  }

  /** Three transmissions for each transport that the message may use. */
  function Allowance(only: Option<Link>): nat {
    if only.Some? then 3 else 9
  }

  /** One acceptance and two retries per tried link, and two more per retarget. */
  ghost predicate WithinBudget(s: Flow, tag: nat, only: Option<Link>) {
    var extra := MAX_TX_RETRIES * Retargets(s.notes, tag);
    if Holds(s, tag) then
      Accepts(s.calls, tag) <=
        3 * (s.pending.value.tried.Size() - 1) + s.retries.tx + (if s.inflight then 1 else 0) + extra
    else Accepts(s.calls, tag) <= Allowance(only) + extra
  }

  /** When only is a link, message tag is strict on it. */
  ghost predicate StrictOn(s: Flow, tag: nat, only: Option<Link>) {
    only.Some? ==>
      && PutsOnlyOn(s.calls, tag, only.value)
      && (Holds(s, tag) ==>
            !s.pending.value.allow && s.pending.value.desc.link == only.value && s.pending.value.tried.Size() == 1)
  }

  /** The message in flight is the last accepted attempt, and has not settled. */
  ghost predicate FlightKnown(s: Flow) {
    && NumberedBelow(s.calls, s.count)
    && SettledBelow(s.notes, s.count)
    && (s.inflight && s.pending.Some? ==>
          var m := s.pending.value;
          Accepted(s.calls, m.attempt, m.tag, m.desc) && Settles(s.notes, m.attempt) == 0)
  }

  ghost predicate Good(s: Flow, tag: nat, only: Option<Link>) {
    Shape(s) && TimeSafe(s) && WithinBudget(s, tag, only) && StrictOn(s, tag, only) && FlightKnown(s)
  }

  /** The invariant of a message whose retries on its link may be used up: it holds again
      once the message is dropped or moved to an untried link. */
  ghost predicate Tired(s: Flow, tag: nat, only: Option<Link>) {
    && Shape(s) && TimeSafe(s) && StrictOn(s, tag, only) && FlightKnown(s)
    && Accepts(s.calls, tag) <=
         (if Holds(s, tag) then 3 * s.pending.value.tried.Size() else Allowance(only))
         + MAX_TX_RETRIES * Retargets(s.notes, tag)
  }

  /** The pending message is in flight, or the flow waits for its link. */
  ghost predicate Covered(s: Flow) {
    s.pending.Some? ==> s.inflight || (!s.stage.Idle? && s.target == Some(s.pending.value.desc.link))
  }

  /** The invariant does not look at the current link, the configured mask or the policy flag. */
  ghost predicate Alike(s: Flow, t: Flow) {
    && t.mode == s.mode && t.time == s.time && t.handle == s.handle
    && t.target == s.target && t.stage == s.stage && t.retries == s.retries
    && t.inflight == s.inflight && t.pending == s.pending
    && t.count == s.count && t.calls == s.calls && t.notes == s.notes
  }

  lemma AlikeKeeps(s: Flow, t: Flow, tag: nat, only: Option<Link>)
    requires Good(s, tag, only) && Alike(s, t)
    ensures Good(t, tag, only)
  {
  }

  // ---------------------------------------------------------------- stack calls

  /** Appending a call other than an accepted put or a new session. */
  lemma AskKeeps(env: Env, s: Flow, call: Call, tag: nat, only: Option<Link>)
    requires Good(s, tag, only)
    requires !call.Put? && !call.Session? && !call.Synced? && (call.Start? && call.link.Lora? ==> s.time)
    ensures Good(Ask(env, s, call).flow, tag, only)
  {
    NumberedMore(s.calls, s.count, s.count + 1);
    NoSettleAbove(s.notes, s.count, s.count + 1);
  }

  lemma PolicyKeeps(env: Env, s: Flow, tag: nat, only: Option<Link>)
    requires Good(s, tag, only)
    ensures Good(ConfigurePolicy(env, s), tag, only)
  {
    if env.autoConnect {
      AskKeeps(env, s, SetPolicy, tag, only);
      AskKeeps(env, Ask(env, s, SetPolicy).flow, SetParams, tag, only);
    }
  }

  lemma ConnectKeeps(env: Env, s: Flow, tag: nat, only: Option<Link>)
    requires Good(s, tag, only)
    ensures Good(RequestConnect(env, s), tag, only)
  {
    AskKeeps(env, s, Connect, tag, only);
  }

  /** The branch that retries `sid_stop` with the observed link cannot be taken: the current
      link has just been synchronised with it. */
  lemma StaleStopNeverRetried(env: Env, s: Flow)
    requires Sync(s).current.Some?
    ensures var r := StopCurrent(env, Sync(s));
            r.err == env.answer(s.count).err && r.flow.count == s.count + 1
            && r.flow.current == if r.err.NoError? then None else Sync(s).current
  {
    var synced := Sync(s);
    var first := SidStop(env, synced, synced.current.value);
    assert RetryStop(env, first) == first;
  }

  lemma StopKeeps(env: Env, s: Flow, tag: nat, only: Option<Link>)
    requires Good(s, tag, only)
    ensures Good(StopCurrent(env, s).flow, tag, only)
  {
    if s.current.Some? {
      var first := SidStop(env, s, s.current.value);
      AskKeeps(env, s, Stop(s.current.value, Answered(env, s)), tag, only);
      RetryStopKeeps(env, first, tag, only);
      AlikeKeeps(RetryStop(env, first).flow, RetryStop(env, first).flow.(current := None), tag, only);
    }
  }

  lemma RetryStopKeeps(env: Env, first: Outcome, tag: nat, only: Option<Link>)
    requires Good(first.flow, tag, only)
    ensures Good(RetryStop(env, first).flow, tag, only)
  {
    var seen := Observed(first.flow);
    if seen.Some? {
      var moved := first.flow.(current := seen);
      AlikeKeeps(first.flow, moved, tag, only);
      AskKeeps(env, moved, Stop(seen.value, Answered(env, moved)), tag, only);
    }
  }

  lemma StartKeeps(env: Env, s: Flow, target: Link, tag: nat, only: Option<Link>)
    requires Good(s, tag, only) && (target.Lora? ==> s.time)
    ensures Good(StartTarget(env, s, target).flow, tag, only)
  {
    hide ConfigurePolicy, RequestConnect;
    AskKeeps(env, s, Start(target, Answered(env, s)), tag, only);
    var r := SidStart(env, s, target);
    if r.err.NoError? {
      var configured := r.flow.(config := TargetMask(target));
      AlikeKeeps(r.flow, configured, tag, only);
      PolicyKeeps(env, configured, tag, only);
      var linked := if !target.Fsk? && !configured.policy then ConfigurePolicy(env, configured)
                    else configured;
      ConnectKeeps(env, linked, tag, only);
      var asked := if target.Ble? then RequestConnect(env, linked) else linked;
      AlikeKeeps(asked, LinkStarted(env, r.flow, target), tag, only);
    }
  }

  lemma TransitionKeeps(env: Env, s: Flow, target: Link, force: bool, tag: nat, only: Option<Link>)
    requires Good(s, tag, only) && (target.Lora? ==> s.time)
    ensures Good(Transition(env, s, target, force).flow, tag, only)
  {
    hide StopCurrent, StartTarget, RequestConnect;
    var synced := Sync(s);
    if !force && synced.current == Some(target) {
      ConnectKeeps(env, synced.(config := TargetMask(target)), tag, only);
    } else {
      StopKeeps(env, synced, tag, only);
      StartKeeps(env, StopCurrent(env, synced).flow, target, tag, only);
    }
  }

  lemma PutKeeps(env: Env, s: Flow, tag: nat, only: Option<Link>)
    requires Good(s, tag, only) && s.pending.Some? && !s.inflight
    ensures var r := SidPut(env, s);
            if r.err.NoError? then Good(r.flow.(inflight := true), tag, only)
            else Good(r.flow, tag, only)
  {
    NumberedMore(s.calls, s.count, s.count + 1);
    NoSettleAbove(s.notes, s.count, s.count);
    NoSettleAbove(s.notes, s.count, s.count + 1);
  }

  lemma SyncKeeps(s: Flow, tag: nat, only: Option<Link>)
    requires Good(s, tag, only)
    ensures Good(Sync(s), tag, only) && (Covered(s) ==> Covered(Sync(s)))
  {
    AlikeKeeps(s, Sync(s), tag, only);
  }

  /** Arming a wait for a target, or cancelling it. */
  lemma ArmKeeps(s: Flow, target: Link, stage: Stage, tag: nat, only: Option<Link>)
    requires Good(s, tag, only) && s.mode
    ensures Good(s.(target := Some(target), stage := stage), tag, only)
    ensures Good(Arm(s.(target := Some(target)), stage), tag, only)
    ensures Good(s.(target := Some(target), stage := stage, timer := false), tag, only)
  {
  }

  lemma BootstrapKeeps(env: Env, s: Flow, target: Link, tag: nat, only: Option<Link>)
    requires Good(s, tag, only) && s.mode && s.target == Some(target)
    ensures var r := Bootstrap(env, s);
            Good(r.flow, tag, only) && r.flow.target == s.target
            && r.flow.pending == s.pending && r.flow.inflight == s.inflight
            && r.flow.stage == if r.err.NoError? then WaitFsk else s.stage
  {
    if s.current != Some(Fsk) {
      TransitionKeeps(env, s, Fsk, false, tag, only);
      ArmKeeps(Transition(env, s, Fsk, false).flow, target, WaitFsk, tag, only);
    } else {
      ArmKeeps(s, target, WaitFsk, tag, only);
    }
  }

  // ---------------------------------------------------------------- the mutual recursion

  /** The pending message may be put: it is not in flight and its link is ready. */
  ghost predicate Sendable(s: Flow) {
    s.pending.Some? && !s.inflight && LinkReady(s.status, s.pending.value.desc.link)
  }

  lemma TryPendingKeeps(env: Env, s: Flow, tag: nat, only: Option<Link>)
    requires Good(s, tag, only)
    ensures Good(TryPending(env, s), tag, only)
    ensures Sendable(s) || Covered(s) ==> Covered(TryPending(env, s))
    decreases Untried(s), 3
  {
    if Sendable(s) {
      PutKeeps(env, s, tag, only);
      var r := SidPut(env, s);
      if !r.err.NoError? {
        SelectFallbackKeeps(env, r.flow, tag, only);
        var f := SelectFallback(env, r.flow);
        SyncKeeps(f.flow, tag, only);
        var l := f.flow.pending.value.desc.link;
        ArmKeeps(f.flow, l, WaitFor(l), tag, only);
      }
    }
  }

  /** The current link of a pending message is always marked, so marking it again does nothing. */
  lemma MarkedAlready(s: Flow)
    requires s.pending.Some? && s.pending.value.tried.Has(s.pending.value.desc.link)
    ensures MarkAttempt(s) == s
  {
  }

  lemma SelectFallbackKeeps(env: Env, s: Flow, tag: nat, only: Option<Link>)
    requires Tired(s, tag, only)
    ensures Tired(SelectFallback(env, s).flow, tag, only)
    ensures Good(s, tag, only) ==> Good(SelectFallback(env, s).flow, tag, only)
    ensures SelectFallback(env, s).ok ==>
              Good(SelectFallback(env, s).flow, tag, only) && Covered(SelectFallback(env, s).flow)
    ensures !s.inflight && !SelectFallback(env, s).ok ==> !SelectFallback(env, s).flow.inflight
    decreases Untried(s), 2
  {
    hide FallbackTo, MarkAttempt;
    if s.pending.Some? && s.pending.value.allow {
      MarkedAlready(s);
      var c := Candidate(s.status.up, s.time, s.pending.value.tried);
      if c.Some? {
        FallbackToKeeps(env, s, c.value, tag, only);
      }
    }
  }

  lemma FallbackToKeeps(env: Env, s: Flow, l: Link, tag: nat, only: Option<Link>)
    requires Tired(s, tag, only)
    requires s.pending.Some? && s.pending.value.allow && !s.pending.value.tried.Has(l)
    ensures Good(FallbackTo(env, s, l).flow, tag, only)
    ensures FallbackTo(env, s, l).ok ==> Covered(FallbackTo(env, s, l).flow)
    ensures !FallbackTo(env, s, l).ok ==> !FallbackTo(env, s, l).flow.inflight
    decreases Untried(s), 1
  {
    assert Good(SwitchTo(s, l), tag, only);
    ReachTargetKeeps(env, SwitchTo(s, l), l, tag, only);
  }

  /** How far a call of reach_target got. */
  ghost predicate Reached(s: Flow, target: Link, r: Outcome) {
    if r.err.NoError? then
      s.pending.Some? && s.pending.value.desc.link == target ==> Covered(r.flow)
    else
      r.flow.stage == s.stage && r.flow.target == Some(target)
      && r.flow.pending == s.pending && r.flow.inflight == s.inflight
  }

  lemma ReachTargetKeeps(env: Env, s: Flow, target: Link, tag: nat, only: Option<Link>)
    requires Good(s, tag, only) && s.mode
    ensures Good(ReachTarget(env, s, target).flow, tag, only)
    ensures Reached(s, target, ReachTarget(env, s, target))
    decreases Untried(s), 5
  {
    hide GoTo, Bootstrap;
    var aimed := Sync(s).(target := Some(target));
    SyncKeeps(s, tag, only);
    ArmKeeps(Sync(s), target, s.stage, tag, only);
    if target.Lora? && !s.time {
      BootstrapKeeps(env, aimed, target, tag, only);
    } else {
      GoToKeeps(env, aimed, target, tag, only);
    }
  }

  lemma GoToKeeps(env: Env, s: Flow, target: Link, tag: nat, only: Option<Link>)
    requires Good(s, tag, only) && s.mode && s.target == Some(target) && (target.Lora? ==> s.time)
    ensures Good(GoTo(env, s, target).flow, tag, only)
    ensures Reached(s, target, GoTo(env, s, target))
    decreases Untried(s), 4
  {
    TransitionKeeps(env, s, target, false, tag, only);
    var t := Transition(env, s, target, false).flow;
    ArmKeeps(t, target, Idle, tag, only);
    ArmKeeps(t, target, WaitFor(target), tag, only);
    if LinkReady(s.status, target) {
      TryPendingKeeps(env, t.(target := Some(target), stage := Idle, timer := false), tag, only);
    }
  }
}

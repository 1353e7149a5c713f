/** The hello flow of app_dut.c as a reactive state machine over transports.

    Every handler runs to completion on the one consumer thread, so a handler is a
    function from state to state.  The Sidewalk stack is an arbitrary oracle: its
    n-th answer is `env.answer(n)`, and every statement is made for all oracles.
    Two logs record what happened: `calls` lists the stack calls, `notes` what the
    handlers decided about messages. */
module FlowModel {
  import opened Links

  const MAX_TX_RETRIES: nat := 2

  datatype Err = NoError | InvalidArgs | OtherError

  datatype MsgType = Get | Set | Notify | Response

  datatype Stage = Idle | WaitBle | WaitFsk | WaitLora

  datatype Status = Status(ready: bool, synced: bool, up: LinkSet)

  /** `sid->config.link_mask`: one of the three target masks, or anything else. */
  datatype Config = TargetMask(link: Link) | OtherMask

  /** What the stack returns from one call: the error, the message id it writes, and,
      for a failed `sid_init`, whether a handle is left behind. */
  datatype Answer = Answer(err: Err, id: nat, handle: bool)

  /** The link retry limits and build options, the meaning of an all-zero status in
      the SDK's enumerations, and the stack's answers. */
  datatype Env = Env(maxBle: nat, maxFsk: nat, maxLora: nat, autoConnect: bool,
                     zeroReady: bool, zeroSynced: bool, answer: nat -> Answer)

  /** The limits written in the source. */
  predicate SourceLimits(env: Env) {
    env.maxBle == 0 && env.maxFsk == 0 && env.maxLora == 0
  }

  datatype Desc = Desc(id: nat, link: Link, kind: MsgType)

  /** The pending message.  `tag` names the allocation and `attempt` the stack call
      that accepted it last; both exist only for the statements made about runs. */
  datatype Msg = Msg(tag: nat, desc: Desc, allow: bool, tried: LinkSet, attempt: nat)

  /** A message handed to the flow; `want` is None for an automatic target. */
  datatype Request = Request(tag: nat, want: Option<Link>, allow: bool, kind: MsgType, id: nat)

  datatype Call =
    | Start(link: Link, ok: bool)
    | Stop(link: Link, ok: bool)
    | Put(no: nat, tag: nat, desc: Desc, ok: bool)
    | Session            // sid_init succeeded for the flow
    | Synced             // a TIME_SYNCED status was handled in flow mode
    | SetPolicy          // sid_option, the automatic connection policy
    | SetParams          // sid_option, its parameters for BLE
    | Connect            // the BLE connection request
    | CheckData          // the check of the manufacturing data
    | Init               // sid_init for a raw command, or one that failed
    | Deinit
    | Raw                // sid_start or sid_stop for a raw command

  datatype Note =
    | Retarget(tag: nat)   // a flow set or switch reached a new target while tag was pending
    | Discard(tag: nat)    // the error of reach_target was discarded while tag was pending
    | TimedOut(tag: nat)   // a wait stage expired while tag was pending
    | Settle(no: nat)      // a transmit result was applied to attempt no
    | Freed(tag: nat)      // tag's context and payload were freed

  datatype Log<T> = Nil | After(before: Log<T>, last: T)

  datatype Retries = Retries(ble: nat, fsk: nat, lora: nat, tx: nat)

  const NO_RETRIES := Retries(0, 0, 0, 0)

  /** The statics of the flow and what the handlers read of the context; `timer` says that the
      timeout work is scheduled. */
  datatype Flow = Flow(
    mode: bool, time: bool, policy: bool,
    current: Option<Link>, target: Option<Link>,
    retries: Retries, stage: Stage, timer: bool, inflight: bool, pending: Option<Msg>,
    handle: bool, config: Config, status: Status,
    count: nat, calls: Log<Call>, notes: Log<Note>)

  // ---------------------------------------------------------------- stack calls

  datatype Outcome = Outcome(flow: Flow, err: Err)

  /** One stack call: take the next answer and append `call` to the log. */
  function Ask(env: Env, s: Flow, call: Call): (r: Outcome)
    ensures SameMessage(s, r.flow) && r.flow.current == s.current
  {
    Outcome(s.(count := s.count + 1, calls := After(s.calls, call)), env.answer(s.count).err)
  }

  function Answered(env: Env, s: Flow): bool {
    env.answer(s.count).err.NoError?
  }

  function SidStop(env: Env, s: Flow, l: Link): Outcome {
    Ask(env, s, Stop(l, Answered(env, s)))
  }

  function SidStart(env: Env, s: Flow, l: Link): Outcome {
    Ask(env, s, Start(l, Answered(env, s)))
  }

  function Note1(s: Flow, n: Note): Flow {
    s.(notes := After(s.notes, n))
  }

  // ---------------------------------------------------------------- masks and readiness

  /** The transport that a reported link status stands for. */
  function StatusLink(up: LinkSet): Option<Link> {
    if up.lora then Some(Lora) else if up.fsk then Some(Fsk) else if up.ble then Some(Ble) else None
  }

  function Observed(s: Flow): Option<Link> {
    match StatusLink(s.status.up)
    case Some(l) => Some(l)
    case None => match s.config case TargetMask(l) => Some(l) case OtherMask => None
  }

  function Sync(s: Flow): (t: Flow)
    ensures SameMessage(s, t) && t.config == s.config && t.calls == s.calls
  {
    if Observed(s).None? then s else s.(current := Observed(s))
  }

  /** `dut_flow_log_status` synchronises the current link as a side effect. */
  function LogStatus(s: Flow): (t: Flow)
    ensures SameMessage(s, t)
  {
    Sync(s)
  }

  predicate LinkReady(st: Status, l: Link) {
    st.ready && st.up.Has(l)
  }

  function WaitFor(l: Link): (stage: Stage)
    ensures !stage.Idle? && StageLink(stage) == l
  {
    match l case Ble => WaitBle case Fsk => WaitFsk case Lora => WaitLora
  }

  /** Wait for a link: the timeout work is scheduled. */
  function Arm(s: Flow, stage: Stage): Flow {
    s.(stage := stage, timer := true)
  }

  function CancelWait(s: Flow): Flow {
    s.(stage := Idle, timer := false)
  }

  /** A wait stage is armed and nothing is scheduled to end it. */
  predicate Unwatched(s: Flow) {
    !s.stage.Idle? && !s.timer
  }

  // ---------------------------------------------------------------- link transitions

  function RequestConnect(env: Env, s: Flow): (t: Flow)
    ensures SameMessage(s, t)
  {
    if s.handle then Ask(env, s, Connect).flow else s
  }

  /** The two option calls of the automatic BLE connection; the second only after the first. */
  function ConfigurePolicy(env: Env, s: Flow): (t: Flow)
    ensures SameMessage(s, t)
  {
    if !env.autoConnect then s.(policy := false)
    else
      var first := Ask(env, s, SetPolicy);
      if !first.err.NoError? then first.flow.(policy := false)
      else
        var second := Ask(env, first.flow, SetParams);
        second.flow.(policy := second.err.NoError?)
  }

  function StopCurrent(env: Env, s: Flow): (r: Outcome)
    ensures SameMessage(s, r.flow)
  {
    if s.current.None? then Outcome(s, NoError)
    else
      var r := RetryStop(env, SidStop(env, s, s.current.value));
      if r.err.NoError? then Outcome(r.flow.(current := None), NoError) else r
  }

  /** A stop refused with invalid arguments is repeated with the observed link, if it differs. */
  function RetryStop(env: Env, first: Outcome): (r: Outcome)
    ensures SameMessage(first.flow, r.flow)
  {
    var seen := Observed(first.flow);
    if first.err.InvalidArgs? && seen.Some? && seen != first.flow.current
    then SidStop(env, first.flow.(current := seen), seen.value)
    else first
  }

  function StartTarget(env: Env, s: Flow, target: Link): (r: Outcome)
    ensures SameMessage(s, r.flow)
  {
    var r := SidStart(env, s, target);
    if !r.err.NoError? then r else Outcome(LinkStarted(env, r.flow, target), NoError)
  }

  /** After `sid_start`: set up the BLE connection where the target has the BLE bit. */
  function LinkStarted(env: Env, s: Flow, target: Link): (t: Flow)
    ensures SameMessage(s, t)
  {
    var configured := s.(config := TargetMask(target));
    var linked := if !target.Fsk? && !configured.policy then ConfigurePolicy(env, configured)
                  else configured;
    var asked := if target.Ble? then RequestConnect(env, linked) else linked;
    asked.(current := Some(target))
  }

  function Transition(env: Env, s: Flow, target: Link, force: bool): (r: Outcome)
    ensures SameMessage(s, r.flow)
  {
    var synced := Sync(s);
    if !force && synced.current == Some(target) then
      var kept := synced.(config := TargetMask(target));
      Outcome(if target.Ble? then RequestConnect(env, kept) else kept, NoError)
    else
      var stopped := StopCurrent(env, synced);
      if !stopped.err.NoError? then stopped else StartTarget(env, stopped.flow, target)
  }

  /** What a link transition leaves alone. */
  predicate SameMessage(s: Flow, t: Flow) {
    && t.mode == s.mode && t.time == s.time && t.handle == s.handle && t.status == s.status
    && t.target == s.target && t.stage == s.stage && t.timer == s.timer && t.retries == s.retries
    && t.inflight == s.inflight && t.pending == s.pending && t.notes == s.notes
    && s.count <= t.count
  }

  /** LoRa without cached time: bring FSK up first and wait for its time sync. */
  function Bootstrap(env: Env, s: Flow): (r: Outcome)
    ensures SameSession(s, r.flow)
  {
    var r := if s.current != Some(Fsk) then Transition(env, s, Fsk, false) else Outcome(s, NoError);
    if !r.err.NoError? then r else Outcome(Arm(r.flow, WaitFsk), NoError)
  }

  // ---------------------------------------------------------------- sending and falling back

  datatype Choice = Choice(flow: Flow, ok: bool)

  function Untried(s: Flow): nat {
    if s.pending.Some? then 3 - s.pending.value.tried.Size() else 0
  }

  function MarkAttempt(s: Flow): (t: Flow)
    requires s.pending.Some?
    ensures t.pending.Some? && s.pending.value.tried.Size() <= t.pending.value.tried.Size()
    ensures s.pending.value.allow ==> SameSession(s, t)
  {
    var m := s.pending.value;
    s.(pending := Some(m.(tried := m.tried.With(m.desc.link))))
  }

  /** The link that follows the tried ones: a reported one before any other, of the reported ones BLE
      first and LoRa before FSK; of the others FSK, and LoRa after it once the time is known. */
  ghost predicate NextLink(up: LinkSet, time: bool, tried: LinkSet, l: Link) {
    && !tried.Has(l)
    && if up.Has(l) then (up.ble && !tried.ble ==> l.Ble?) && (up.lora && !tried.lora ==> !l.Fsk?)
       else up.Within(tried) && !l.Ble? && (l.Lora? ==> tried.fsk && time)
  }

  /** The link chosen next: BLE, LoRa, FSK if reported up, then FSK, then LoRa once time is cached. */
  function Candidate(up: LinkSet, time: bool, tried: LinkSet): (c: Option<Link>)
    ensures c.Some? ==> NextLink(up, time, tried, c.value)
  {
    if up.ble && !tried.ble then Some(Ble)
    else if up.lora && !tried.lora then Some(Lora)
    else if up.fsk && !tried.fsk then Some(Fsk)
    else if !tried.fsk then Some(Fsk)
    else if time && !tried.lora then Some(Lora)
    else None
  }

  /** What the recursion below never touches; only the link, the tried set and the id of
      the pending message change, and the tried set never shrinks. */
  predicate SameSession(s: Flow, t: Flow) {
    && t.mode == s.mode && t.time == s.time && t.handle == s.handle && t.status == s.status
    && t.notes == s.notes && s.count <= t.count
    && t.pending.Some? == s.pending.Some?
    && (s.pending.Some? ==>
          var m, n := s.pending.value, t.pending.value;
          && n.tag == m.tag && n.allow == m.allow && n.desc.kind == m.desc.kind
          && m.tried.Within(n.tried)
          && (!m.allow ==> n.desc.link == m.desc.link && n.tried == m.tried))
  }

  function Rearm(s: Flow): (t: Flow)
    requires s.pending.Some?
    ensures SameSession(s, t)
  {
    var l := s.pending.value.desc.link;
    Arm(s.(target := Some(l)), WaitFor(l))
  }

  /** `sid_put_msg`; the stack may write the descriptor's id. */
  function SidPut(env: Env, s: Flow): (r: Outcome)
    requires s.pending.Some?
    ensures SameSession(s, r.flow) && Untried(r.flow) == Untried(s)
  {
    var m := s.pending.value;
    var d := m.desc.(id := env.answer(s.count).id);
    var ok := Answered(env, s);
    var sent := m.(desc := d, attempt := if ok then s.count else m.attempt);
    Ask(env, s.(pending := Some(sent)), Put(s.count, m.tag, d, ok))
  }

  function TryPending(env: Env, s: Flow): (t: Flow)
    ensures SameSession(s, t)
    decreases Untried(s), 3
  {
    if s.pending.None? || !s.handle || s.inflight then s
    else if !LinkReady(s.status, s.pending.value.desc.link) then s
    else
      var r := SidPut(env, s);
      if r.err.NoError? then r.flow.(inflight := true)
      else
        var f := SelectFallback(env, r.flow);
        if f.ok then LogStatus(f.flow) else Rearm(f.flow)
  }

  function SelectFallback(env: Env, s: Flow): (c: Choice)
    ensures SameSession(s, c.flow)
    ensures c.ok ==> s.pending.Some? && s.pending.value.tried.Size() < c.flow.pending.value.tried.Size()
    decreases Untried(s), 2
  {
    if s.pending.None? || !s.pending.value.allow then Choice(s, false)
    else
      var marked := MarkAttempt(s);
      match Candidate(s.status.up, s.time, marked.pending.value.tried)
      case None => Choice(marked, false)
      case Some(l) => FallbackTo(env, marked, l)
  }

  function SwitchTo(s: Flow, l: Link): Flow
    requires s.pending.Some?
  {
    var m := s.pending.value;
    s.(pending := Some(m.(desc := m.desc.(link := l), tried := m.tried.With(l))),
       inflight := false, retries := NO_RETRIES)
  }

  function FallbackTo(env: Env, s: Flow, l: Link): (c: Choice)
    requires s.pending.Some? && s.pending.value.allow && !s.pending.value.tried.Has(l)
    ensures SameSession(s, c.flow)
    ensures s.pending.value.tried.Size() < c.flow.pending.value.tried.Size()
    decreases Untried(s), 1
  {
    var r := ReachTarget(env, SwitchTo(s, l), l);
    Choice(r.flow, r.err.NoError?)
  }

  function ReachTarget(env: Env, s: Flow, target: Link): (r: Outcome)
    ensures SameSession(s, r.flow)
    decreases Untried(s), 5
  {
    var aimed := Sync(s).(target := Some(target));
    if target.Lora? && !s.time then Bootstrap(env, aimed) else GoTo(env, aimed, target)
  }

  /** Start the target link; send at once if it is ready, else wait for it. */
  function GoTo(env: Env, s: Flow, target: Link): (r: Outcome)
    ensures SameSession(s, r.flow)
    decreases Untried(s), 4
  {
    var r := Transition(env, s, target, false);
    if !r.err.NoError? then r
    else if LinkReady(s.status, target) then Outcome(TryPending(env, CancelWait(r.flow)), NoError)
    else Outcome(Arm(r.flow, WaitFor(target)), NoError)
  }

  // ---------------------------------------------------------------- freeing and failing

  function FreePending(s: Flow): Flow {
    if s.pending.None? then s else Note1(s, Freed(s.pending.value.tag)).(pending := None)
  }

  predicate SameTag(m: Msg, n: Msg) {
    n.tag == m.tag && n.allow == m.allow && m.tried.Size() <= n.tried.Size()
  }

  /** The pending message of s is still pending in t, or was freed, and nothing else was noted. */
  predicate KeptOrFreed(s: Flow, t: Flow) {
    if t.pending.Some? then
      s.pending.Some? && SameTag(s.pending.value, t.pending.value) && t.notes == s.notes
    else
      t.notes == FreePending(s).notes
  }

  function Release(s: Flow): Flow {
    s.(mode := false, policy := false)
  }

  function FailPending(s: Flow): Flow {
    Release(CancelWait(FreePending(s).(inflight := false, target := None,
                                       retries := s.retries.(tx := 0))))
  }

  function Reset(env: Env, s: Flow): Flow {
    FreePending(s).(mode := false, time := false, policy := false, current := None,
                    target := None, retries := NO_RETRIES, stage := Idle, timer := false, inflight := false,
                    status := Status(env.zeroReady, false, NO_LINKS))
  }

  // ---------------------------------------------------------------- handlers

  function PrepareSession(env: Env, s: Flow): (r: Outcome)
    ensures r.flow.pending == s.pending && r.flow.notes == s.notes
  {
    var closed := if s.handle && !s.mode then Ask(env, s, Deinit).flow.(handle := false) else s;
    if closed.handle then Outcome(closed, NoError)
    else
      var mfg := Ask(env, closed, CheckData);
      if !mfg.err.NoError? then Outcome(mfg.flow, OtherError)
      else
        OpenSession(env, mfg.flow.(config := OtherMask,
                                   status := Status(env.zeroReady, env.zeroSynced, NO_LINKS)))
  }

  /** `sid_init` for the flow and, on success, a fresh session. */
  function OpenSession(env: Env, s: Flow): (r: Outcome)
    ensures r.flow.pending == s.pending && r.flow.notes == s.notes
  {
    var a := env.answer(s.count);
    var r := Ask(env, s, if a.err.NoError? then Session else Init);
    if !r.err.NoError? then Outcome(r.flow.(handle := a.handle), r.err)
    else Outcome(NewSession(r.flow), NoError)
  }

  function NewSession(s: Flow): Flow {
    s.(handle := true, mode := true, time := false, policy := false, current := None,
       target := None, retries := NO_RETRIES, stage := Idle, inflight := false)
  }

  function NoteRetarget(s: Flow): Flow {
    if s.pending.None? then s else Note1(s, Retarget(s.pending.value.tag))
  }

  function FlowSet(env: Env, s: Flow, target: Link): (t: Flow)
    ensures KeptOrFreed(NoteRetarget(s), t) || KeptOrFreed(s, t)
    ensures t.pending.Some? == s.pending.Some?
  {
    var p := PrepareSession(env, s);
    if !p.err.NoError? then p.flow else AimAt(env, p.flow, target)
  }

  function AimAt(env: Env, s: Flow, target: Link): (t: Flow)
    ensures KeptOrFreed(NoteRetarget(s), t) && t.pending.Some? == s.pending.Some?
  {
    LogStatus(ReachTarget(env, NoteRetarget(s).(retries := NO_RETRIES), target).flow)
  }

  /** FSK is switched to LoRa, LoRa to BLE, and anything else to FSK. */
  function SwitchTarget(s: Flow): Link {
    match Sync(s).current
    case Some(Fsk) => Lora
    case Some(Lora) => Ble
    case _ => Fsk
  }

  function FlowSwitch(env: Env, s: Flow): Flow {
    FlowSet(env, Sync(s), SwitchTarget(s))
  }

  /** An automatic target takes BLE, LoRa, FSK if reported up, else FSK. */
  function ResolveAuto(up: LinkSet): Link {
    if up.ble then Ble else if up.lora then Lora else Fsk
  }

  function Accept(s: Flow, req: Request): Msg {
    var l := if req.want.Some? then req.want.value else ResolveAuto(s.status.up);
    Msg(req.tag, Desc(req.id, l, req.kind), req.allow || req.want.None?, NO_LINKS.With(l), 0)
  }

  /** The message stays pending, and at most a discarded error is noted. */
  predicate KeptOrDiscarded(s: Flow, t: Flow) {
    && s.pending.Some? && t.pending.Some? && SameTag(s.pending.value, t.pending.value)
    && (t.notes == s.notes || t.notes == After(s.notes, Discard(s.pending.value.tag)))
  }

  /** Reach the pending message's target and discard the error, if any. */
  function ReachDiscarding(env: Env, s: Flow): (t: Flow)
    requires s.pending.Some?
    ensures KeptOrDiscarded(s, t)
  {
    var m := s.pending.value;
    var r := ReachTarget(env, s, m.desc.link);
    if r.err.NoError? then r.flow else Note1(r.flow, Discard(m.tag))
  }

  function FlowSend(env: Env, s: Flow, req: Request): Flow {
    var p := PrepareSession(env, s);
    if !p.err.NoError? then Note1(p.flow, Freed(req.tag)) else Submit(env, Replace(p.flow, req))
  }

  /** The request becomes the pending message; an older one is freed. */
  function Replace(s: Flow, req: Request): Flow {
    FreePending(s).(inflight := false, pending := Some(Accept(s, req)))
  }

  /** Send the new message at once if its link is ready, else reach its target. */
  function Submit(env: Env, s: Flow): (t: Flow)
    requires s.pending.Some?
    ensures KeptOrDiscarded(s, t)
  {
    if LinkReady(s.status, s.pending.value.desc.link) then TryPending(env, s)
    else LogStatus(ReachDiscarding(env, s.(retries := NO_RETRIES)))
  }

  function FlowCancel(s: Flow): Flow {
    LogStatus(Release(CancelWait(FreePending(s).(inflight := false, target := None))))
  }

  /** Fall back, or drop the message when there is nothing to fall back to. */
  function FallBackOrFail(env: Env, s: Flow): (t: Flow)
    ensures KeptOrFreed(s, t)
  {
    var f := SelectFallback(env, s);
    LogStatus(if f.ok then f.flow else FailPending(f.flow))
  }

  function StageLink(stage: Stage): Link
    requires !stage.Idle?
  {
    match stage case WaitBle => Ble case WaitFsk => Fsk case WaitLora => Lora
  }

  function RetriesLeft(env: Env, r: Retries, l: Link): bool {
    match l
    case Ble => r.ble < env.maxBle
    case Fsk => r.fsk < env.maxFsk
    case Lora => r.lora < env.maxLora
  }

  function CountRetry(r: Retries, l: Link): Retries {
    match l
    case Ble => r.(ble := r.ble + 1)
    case Fsk => r.(fsk := r.fsk + 1)
    case Lora => r.(lora := r.lora + 1)
  }

  predicate Fires(s: Flow) {
    s.mode && s.handle && !s.stage.Idle?
  }

  function NoteTimeout(s: Flow): Flow {
    if s.pending.None? then s else Note1(s, TimedOut(s.pending.value.tag))
  }

  function Timeout(env: Env, s: Flow): (t: Flow)
    ensures KeptOrFreed(if Fires(s) then NoteTimeout(s) else s, t)
  {
    if !s.mode || !s.handle then CancelWait(s)
    else if s.stage.Idle? then s
    else
      var l := StageLink(s.stage);
      var noted := NoteTimeout(s);
      if !RetriesLeft(env, s.retries, l) then FallBackOrFail(env, noted) else RetryStage(env, noted)
  }

  /** Count a retry of the stage's link and restart the link. */
  function RetryStage(env: Env, s: Flow): (t: Flow)
    requires !s.stage.Idle?
    ensures KeptOrFreed(s, t)
  {
    var l := StageLink(s.stage);
    var r := Transition(env, s.(retries := CountRetry(s.retries, l)), l, true);
    if r.err.NoError? then LogStatus(Arm(r.flow, s.stage)) else FallBackOrFail(env, r.flow)
  }

  /** A transmit result that the stack reports for attempt `no`. */
  datatype Result = Result(no: nat, success: bool, desc: Desc)

  /** The result is applied to the pending message. */
  predicate Matches(s: Flow, res: Result) {
    s.mode && s.pending.Some? && s.inflight && s.pending.value.desc == res.desc
  }

  function TxResult(env: Env, s: Flow, res: Result): Flow {
    if !Matches(s, res) then s
    else
      var m := s.pending.value;
      var noted := Note1(s, Settle(m.attempt));
      if res.success then
        FreePending(noted).(inflight := false, retries := s.retries.(tx := 0))
      else if s.retries.tx >= MAX_TX_RETRIES then
        FallBackOrFail(env, noted.(inflight := false))
      else RetrySend(env, noted.(inflight := false))
  }

  /** Count a retry and put the message again, or first reach its link again. */
  function RetrySend(env: Env, s: Flow): (t: Flow)
    requires s.pending.Some?
    ensures KeptOrDiscarded(s, t)
  {
    var l := s.pending.value.desc.link;
    var again := s.(retries := s.retries.(tx := s.retries.tx + 1), target := Some(l));
    LogStatus(if LinkReady(s.status, l) then TryPending(env, again) else ReachDiscarding(env, again))
  }

  function CacheTime(s: Flow): Flow {
    if s.status.synced then s.(time := true, calls := After(s.calls, Synced)) else s
  }

  /** A LoRa target waiting on FSK moves to LoRa once FSK is up and the time is known. */
  function LeaveFsk(env: Env, s: Flow): (t: Flow)
    ensures t.notes == s.notes && t.pending == s.pending && t.mode == s.mode
    ensures t.inflight == s.inflight && t.handle == s.handle && t.status == s.status
  {
    if s.target == Some(Lora) && s.current == Some(Fsk) && s.time && LinkReady(s.status, Fsk) then
      var r := Transition(env, CancelWait(s), Lora, false);
      Arm(r.flow, if r.err.NoError? then WaitLora else WaitFsk)
    else s
  }

  /** A ready target is reached: nothing is waited for any more. */
  function Arrive(s: Flow): Flow {
    if s.target.Some? && LinkReady(s.status, s.target.value)
    then CancelWait(s).(target := None) else s
  }

  /** `sidewalk_event_new_status`: store the status, then step the flow. */
  function NewStatus(env: Env, s: Flow, st: Status): (t: Flow)
    ensures t.notes == s.notes
  {
    var stored := s.(status := st);
    if !s.mode || !s.handle then stored
    else TryPending(env, Arrive(LeaveFsk(env, CacheTime(Sync(stored)))))
  }

  // ---------------------------------------------------------------- raw commands

  function RawInit(env: Env, s: Flow, config: Config): Flow {
    var mfg := Ask(env, Reset(env, s).(config := config), CheckData);
    if !mfg.err.NoError? then mfg.flow
    else
      var ok := Answered(env, mfg.flow);
      var after := ok || env.answer(mfg.flow.count).handle;
      Ask(env, mfg.flow, Init).flow.(handle := after)
  }

  function RawDeinit(env: Env, s: Flow): Flow {
    Reset(env, Ask(env, s, Deinit).flow.(handle := false))
  }

  function RawStartStop(env: Env, s: Flow): Flow {
    Ask(env, Reset(env, s), Raw).flow
  }

  // ---------------------------------------------------------------- runs

  /** The events of other producers: the bulk transfer commands and timers, and all that free a
      context which does not fit into the queue. */
  datatype Task = ReleaseBuffer | FinalizeResponse | CancelTransfer(valid: bool) | PrintStats | PrintParams | Guarded

  datatype Event =
    | EvSet(target: Link)
    | EvSwitch
    | EvSend(req: Request)
    | EvCancel
    | EvReport                 // flow status
    | EvStatus(st: Status)
    | EvTimeout
    | EvResult(res: Result)
    | EvInit(config: Config)
    | EvDeinit
    | EvStartStop
    | EvForeign                // a transmit result for no single transport
    | EvExpire                 // the timeout work runs, on another thread
    | EvTask(task: Task)       // an event with a context that does not touch the flow
    | EvIdle                   // a handler that does not touch the flow

  function Step(env: Env, s: Flow, e: Event): Flow {
    match e
    case EvSet(target) => FlowSet(env, s, target)
    case EvSwitch => FlowSwitch(env, s)
    case EvSend(req) => FlowSend(env, s, req)
    case EvCancel => FlowCancel(s)
    case EvReport => LogStatus(s)
    case EvStatus(st) => NewStatus(env, s, st)
    case EvTimeout => Timeout(env, s)
    case EvResult(res) => TxResult(env, s, res)
    case EvInit(config) => RawInit(env, s, config)
    case EvDeinit => RawDeinit(env, s)
    case EvStartStop => RawStartStop(env, s)
    case EvForeign => s
    case EvExpire => s.(timer := false)
    case EvTask(_) => s
    case EvIdle => s
  }

  function Run(env: Env, s: Flow, evs: seq<Event>): Flow
    decreases |evs|
  {
    if evs == [] then s else Run(env, Step(env, s, evs[0]), evs[1..])
  }

  /** The statics at boot, before any status was stored. */
  function Boot(env: Env, config: Config): Flow {
    Flow(false, false, false, None, None, NO_RETRIES, Idle, false, false, None, false, config,
         Status(env.zeroReady, env.zeroSynced, NO_LINKS), 0, Nil, Nil)
  }
}

/** The statics and handlers of app_dut.c, in place, over link masks.

    Every handler is proved to do to the abstract state exactly what FlowModel says, so
    every result about FlowModel's runs holds of the statics. */
module HelloFlow {
  import opened Links
  import opened FlowModel
  import opened LinkMasks
  import SendOptions

  /** `dut_flow_send_ctx_t`: the message a sender hands over, updated in place while pending. */
  class SendCtx {
    var targetLinkMask: bv32
    var attemptedLinkMask: bv32
    var allowFallback: bool
    var linkType: bv32
    var kind: MsgType
    var id: nat
    const attr: SendOptions.Attributes
    const block: nat   // the heap block of the context itself
    const data: nat    // the heap block of the payload
    ghost const tag: nat
    ghost var attempt: nat

    constructor (target: bv32, link: bv32, allow: bool, kind: MsgType, id: nat, attr: SendOptions.Attributes,
                 block: nat, data: nat, ghost tag: nat)
      ensures targetLinkMask == target && attemptedLinkMask == 0 && allowFallback == allow
      ensures linkType == link && this.kind == kind && this.id == id && this.tag == tag
      ensures this.attr == attr && this.block == block && this.data == data
    {
      targetLinkMask, attemptedLinkMask, allowFallback := target, 0, allow;
      linkType, this.kind, this.id, this.tag := link, kind, id, tag;
      this.attr, this.block, this.data := attr, block, data;
    }

    predicate IsAuto()
      reads this
    {
      targetLinkMask == 0 || linkType == LINK_TYPE_ANY
    }

    /** As the shell hands it over: an automatic target, or a link with its own target. */
    ghost predicate FromShell()
      reads this
    {
      attemptedLinkMask == 0 && (IsAuto() || ValidPending())
    }

    ghost predicate ValidPending()
      reads this
    {
      SendLink(linkType).Some? && targetLinkMask == TargetForSendLink(linkType)
    }

    ghost function Request(): Request
      reads this
      requires FromShell()
    {
      FlowModel.Request(tag, if IsAuto() then None else SendLink(linkType), allowFallback, kind, id)
    }

    ghost function Abs(): Msg
      reads this
      requires ValidPending()
    {
      Msg(tag, Desc(id, SendLink(linkType).value, kind), allowFallback, Bits(attemptedLinkMask), attempt)
    }

    method MarkAttempt()
      requires ValidPending()
      modifies this`attemptedLinkMask
      ensures Abs() == old(Abs()).(tried := old(Abs()).tried.With(old(Abs()).desc.link))
    {
      attemptedLinkMask := Mark(attemptedLinkMask, linkType);
    }

    /** Become a pending message: an automatic target is resolved and may fall back. */
    method Take(linkStatusMask: bv32)
      requires FromShell()
      modifies this
      ensures ValidPending()
      ensures var req := old(Request());
              var l := if req.want.Some? then req.want.value
                       else FlowModel.ResolveAuto(Bits(linkStatusMask));
              Abs() == Msg(tag, Desc(req.id, l, req.kind), req.allow || req.want.None?,
                           NO_LINKS.With(l), 0)
    {
      if IsAuto() {
        allowFallback := true;
        ResolveAuto(linkStatusMask);
      }
      attempt := 0;
      MarkAttempt();
    }

    /** Take the reported BLE, LoRa or FSK link, in this order, else FSK. */
    method ResolveAuto(linkStatusMask: bv32)
      modifies this`targetLinkMask, this`linkType
      ensures ValidPending() && SendLink(linkType) == Some(FlowModel.ResolveAuto(Bits(linkStatusMask)))
    {
      targetLinkMask, linkType := LINK_TYPE_2, LINK_TYPE_2;
      if linkStatusMask & LINK_TYPE_1 != 0 {
        targetLinkMask, linkType := LINK_TYPE_1, LINK_TYPE_1;
      } else if linkStatusMask & LINK_TYPE_3 != 0 {
        targetLinkMask, linkType := LINK_TYPE_1 | LINK_TYPE_3, LINK_TYPE_3;
      }
    }
  }

  class HelloFlow {
    const env: Env

    var modeEnabled: bool
    var cachedTimeValid: bool
    var blePolicyConfigured: bool
    var currentLinkMask: bv32
    var targetLinkMask: bv32
    var bleRetries: nat
    var fskRetries: nat
    var loraRetries: nat
    var txRetries: nat
    var stage: Stage
    var timer: bool   // the timeout work is scheduled
    var sendInflight: bool
    var pendingSend: SendCtx?

    // The Sidewalk context: handle, configuration and last status.
    var hasHandle: bool
    var configLinkMask: bv32
    var stateReady: bool
    var timeSynced: bool
    var linkStatusMask: bv32

    // The stack's answers taken so far, and the logs.
    var count: nat
    ghost var calls: Log<Call>
    ghost var notes: Log<Note>

    ghost predicate Valid()
      reads this, pendingSend
    {
      && (currentLinkMask == 0 || Target(currentLinkMask).Some?)
      && (targetLinkMask == 0 || Target(targetLinkMask).Some?)
      && (pendingSend != null ==> pendingSend.ValidPending())
    }

    ghost function Abs(): Flow
      reads this, pendingSend
      requires Valid()
    {
      Flow(modeEnabled, cachedTimeValid, blePolicyConfigured,
           Target(currentLinkMask), Target(targetLinkMask),
           Retries(bleRetries, fskRetries, loraRetries, txRetries), stage, timer, sendInflight,
           if pendingSend == null then None else Some(pendingSend.Abs()),
           hasHandle, ConfigOf(configLinkMask), LastStatus(),
           count, calls, notes)
    }

    ghost function LastStatus(): Status
      reads this
    {
      Status(stateReady, timeSynced, Bits(linkStatusMask))
    }

    constructor (env: Env, configLinkMask: bv32)
      ensures Valid() && Abs() == Boot(env, ConfigOf(configLinkMask)) && this.env == env
      ensures pendingSend == null
    {
      this.env := env;
      modeEnabled, cachedTimeValid, blePolicyConfigured := false, false, false;
      currentLinkMask, targetLinkMask := 0, 0;
      bleRetries, fskRetries, loraRetries, txRetries := 0, 0, 0, 0;
      stage, timer, sendInflight, pendingSend := Idle, false, false, null;
      hasHandle, this.configLinkMask := false, configLinkMask;
      stateReady, timeSynced, linkStatusMask := env.zeroReady, env.zeroSynced, 0;
      count, calls, notes := 0, Nil, Nil;
    }

    // -------------------------------------------------------------- stack calls

    /** Take the stack's next answer. */
    method Ask(ghost call: Call) returns (err: Err)
      requires Valid()
      modifies this`count, this`calls
      ensures Valid() && Outcome(Abs(), err) == FlowModel.Ask(env, old(Abs()), call)
    {
      err := env.answer(count).err;
      count, calls := count + 1, After(calls, call);
    }

    method SidStop(mask: bv32) returns (err: Err)
      requires Valid() && Target(mask).Some?
      modifies this`count, this`calls
      ensures Valid() && Outcome(Abs(), err) == FlowModel.SidStop(env, old(Abs()), Target(mask).value)
    {
      err := Ask(Stop(Target(mask).value, env.answer(count).err.NoError?));
    }

    method SidStart(mask: bv32) returns (err: Err)
      requires Valid() && Target(mask).Some?
      modifies this`count, this`calls
      ensures Valid() && Outcome(Abs(), err) == FlowModel.SidStart(env, old(Abs()), Target(mask).value)
    {
      err := Ask(Start(Target(mask).value, env.answer(count).err.NoError?));
    }

    /** Put the pending message; the stack may write the descriptor's id. */
    method SidPut() returns (err: Err)
      requires Valid() && pendingSend != null
      modifies this`count, this`calls, pendingSend`id, pendingSend`attempt
      ensures Valid() && Outcome(Abs(), err) == FlowModel.SidPut(env, old(Abs()))
    {
      if !pendingSend.kind.Response? {
        pendingSend.id := 0;
      }
      pendingSend.id := env.answer(count).id;
      ghost var ok := env.answer(count).err.NoError?;
      if ok {
        pendingSend.attempt := count;
      }
      err := Ask(Put(count, pendingSend.tag, pendingSend.Abs().desc, ok));
    }

    // -------------------------------------------------------------- links

    function ObservedLinkMask(): (mask: bv32)
      reads this
      ensures mask == 0 || Target(mask).Some?
    {
      var observed := StatusToTargetMask(linkStatusMask);
      if observed != 0 then observed
      else if MaskIsTarget(configLinkMask) then configLinkMask
      else 0
    }

    lemma ObservedMeans()
      requires Valid()
      ensures Target(ObservedLinkMask()) == Observed(Abs())
    {
    }

    method SyncCurrentLinkMask()
      requires Valid()
      modifies this`currentLinkMask
      ensures Valid() && Abs() == Sync(old(Abs()))
    {
      ObservedMeans();
      var observed := ObservedLinkMask();
      if observed == 0 || observed == currentLinkMask {
        return;
      }
      currentLinkMask := observed;
    }

    method RequestBleConnection()
      requires Valid() && configLinkMask & LINK_TYPE_1 != 0
      modifies this`count, this`calls
      ensures Valid() && Abs() == RequestConnect(env, old(Abs()))
    {
      if !hasHandle || configLinkMask & LINK_TYPE_1 == 0 {
        return;
      }
      var _ := Ask(Connect);
    }

    method ConfigureBleAutoConnect() returns (done: bool)
      requires Valid() && configLinkMask & LINK_TYPE_1 != 0
      modifies this`count, this`calls
      ensures Valid() && Abs().(policy := done) == ConfigurePolicy(env, old(Abs()))
    {
      if !env.autoConnect || configLinkMask & LINK_TYPE_1 == 0 {
        return false;
      }
      var e := Ask(SetPolicy);
      if !e.NoError? {
        return false;
      }
      e := Ask(SetParams);
      return e.NoError?;
    }

    /** `dut_flow_transition`. */
    method Transition(target: bv32, forceRestart: bool) returns (e: Err)
      requires Valid() && Target(target).Some?
      modifies this`currentLinkMask, this`configLinkMask, this`blePolicyConfigured, this`count, this`calls
      ensures Valid()
      ensures Outcome(Abs(), e) == FlowModel.Transition(env, old(Abs()), Target(target).value, forceRestart)
    {
      hide StopCurrent, StartTarget, RequestConnect;
      TargetBits(target);
      SyncCurrentLinkMask();
      TargetInjective(target, currentLinkMask);
      if !forceRestart && currentLinkMask == target {
        configLinkMask := target;
        if target == LINK_TYPE_1 {
          RequestBleConnection();
        }
        return NoError;
      }
      e := StopCurrentLink();
      if !e.NoError? {
        return e;
      }
      e := StartTargetLink(target);
    }

    method StopCurrentLink() returns (e: Err)
      requires Valid()
      modifies this`currentLinkMask, this`count, this`calls
      ensures Valid() && Outcome(Abs(), e) == StopCurrent(env, old(Abs()))
    {
      if currentLinkMask == 0 {
        return NoError;
      }
      e := SidStop(currentLinkMask);
      e := RetryStaleStop(e);
      if e.NoError? {
        SetCurrent(0);
      }
    }

    /** The stop is repeated with the observed mask when the stack refused a stale one. */
    method RetryStaleStop(refused: Err) returns (e: Err)
      requires Valid()
      modifies this`currentLinkMask, this`count, this`calls
      ensures Valid() && Outcome(Abs(), e) == RetryStop(env, Outcome(old(Abs()), refused))
    {
      e := refused;
      ObservedMeans();
      var observed := ObservedLinkMask();
      if e.InvalidArgs? && observed != 0 && observed != currentLinkMask {
        TargetInjective(observed, currentLinkMask);
        SetCurrent(observed);
        e := SidStop(observed);
      }
    }

    method StartTargetLink(target: bv32) returns (e: Err)
      requires Valid() && Target(target).Some?
      modifies this`currentLinkMask, this`configLinkMask, this`blePolicyConfigured, this`count, this`calls
      ensures Valid() && Outcome(Abs(), e) == StartTarget(env, old(Abs()), Target(target).value)
    {
      e := SidStart(target);
      if e.NoError? {
        FinishStart(target);
      }
    }

    method FinishStart(target: bv32)
      requires Valid() && Target(target).Some?
      modifies this`currentLinkMask, this`configLinkMask, this`blePolicyConfigured, this`count, this`calls
      ensures Valid() && Abs() == LinkStarted(env, old(Abs()), Target(target).value)
    {
      SetConfig(target);
      SetUpPolicy();
      ConnectBle();
      SetCurrent(target);
    }

    method SetConfig(target: bv32)
      requires Valid() && Target(target).Some?
      modifies this`configLinkMask
      ensures Valid() && configLinkMask == target
      ensures Abs() == old(Abs()).(config := TargetMask(Target(target).value))
    {
      configLinkMask := target;
    }

    method SetCurrent(mask: bv32)
      requires Valid() && (mask == 0 || Target(mask).Some?)
      modifies this`currentLinkMask
      ensures Valid() && currentLinkMask == mask
      ensures Abs() == old(Abs()).(current := Target(mask))
    {
      currentLinkMask := mask;
    }

    method SetUpPolicy()
      requires Valid() && Target(configLinkMask).Some?
      modifies this`blePolicyConfigured, this`count, this`calls
      ensures Valid()
      ensures var s := old(Abs());
              Abs() == if !s.config.link.Fsk? && !s.policy then ConfigurePolicy(env, s) else s
    {
      TargetBits(configLinkMask);
      if configLinkMask & LINK_TYPE_1 != 0 && !blePolicyConfigured {
        blePolicyConfigured := ConfigureBleAutoConnect();
      }
    }

    method ConnectBle()
      requires Valid() && Target(configLinkMask).Some?
      modifies this`count, this`calls
      ensures Valid()
      ensures var s := old(Abs());
              Abs() == if s.config.link.Ble? then RequestConnect(env, s) else s
    {
      TargetBits(configLinkMask);
      if configLinkMask == LINK_TYPE_1 {
        RequestBleConnection();
      }
    }

    // -------------------------------------------------------------- waiting and retries

    method CancelWait()
      requires Valid()
      modifies this`stage, this`timer
      ensures Valid() && Abs() == FlowModel.CancelWait(old(Abs()))
    {
      timer := false;
      stage := Idle;
    }

    /** Enter a wait stage and schedule the timeout work. */
    method ScheduleWait(next: Stage)
      requires Valid()
      modifies this`stage, this`timer
      ensures Valid() && Abs() == Arm(old(Abs()), next)
    {
      stage := next;
      timer := true;
    }

    /** The timeout work runs: it is scheduled no more. */
    method Expire()
      requires Valid()
      modifies this`timer
      ensures Valid() && Abs() == old(Abs()).(timer := false)
    {
      timer := false;
    }

    /** Arm the wait for a target that is not ready yet. */
    method ScheduleWaitFor(target: bv32)
      requires Valid() && Target(target).Some?
      modifies this`stage, this`timer
      ensures Valid() && Abs() == Arm(old(Abs()), WaitFor(Target(target).value))
    {
      if target == LINK_TYPE_1 {
        ScheduleWait(WaitBle);
      } else if target == LINK_TYPE_2 {
        ScheduleWait(WaitFsk);
      } else if target == (LINK_TYPE_1 | LINK_TYPE_3) {
        ScheduleWait(WaitLora);
      }
    }

    method ResetRetries()
      requires Valid()
      modifies this`bleRetries, this`fskRetries, this`loraRetries, this`txRetries
      ensures Valid() && Abs() == old(Abs()).(retries := NO_RETRIES)
    {
      hide Target, ConfigOf, Bits;
      bleRetries, fskRetries, loraRetries, txRetries := 0, 0, 0, 0;
    }

    method SetTarget(mask: bv32)
      requires Valid() && (mask == 0 || Target(mask).Some?)
      modifies this`targetLinkMask
      ensures Valid() && targetLinkMask == mask && Abs() == old(Abs()).(target := Target(mask))
    {
      targetLinkMask := mask;
    }

    method SetInflight(value: bool)
      requires Valid()
      modifies this`sendInflight
      ensures Valid() && Abs() == old(Abs()).(inflight := value)
    {
      sendInflight := value;
    }

    method LogStatus()
      requires Valid()
      modifies this`currentLinkMask
      ensures Valid() && Abs() == FlowModel.LogStatus(old(Abs()))
    {
      SyncCurrentLinkMask();
    }

    // -------------------------------------------------------------- sending and falling back

    /** `dut_flow_try_pending_send`. */
    method TryPendingSend()
      requires Valid()
      modifies this, pendingSend
      ensures Valid() && pendingSend == old(pendingSend)
      ensures Abs() == TryPending(env, old(Abs()))
      decreases Untried(Abs()), 3
    {
      hide FlowModel.SelectFallback, FlowModel.SidPut, FlowModel.LogStatus, Rearm;
      if pendingSend == null || !hasHandle || sendInflight {
        return;
      }
      if !MaskIsReady(stateReady, linkStatusMask, pendingSend.linkType) {
        return;
      }
      var e := SidPut();
      if e.NoError? {
        SetInflight(true);
        return;
      }
      var fell := SelectFallback();
      if fell {
        LogStatus();
        return;
      }
      RearmWait();
    }

    /** Wait again for the link of the message that could not be put. */
    method RearmWait()
      requires Valid() && pendingSend != null
      modifies this`targetLinkMask, this`stage, this`timer
      ensures Valid() && Abs() == Rearm(old(Abs()))
    {
      SetTarget(pendingSend.targetLinkMask);
      if pendingSend.linkType == LINK_TYPE_1 {
        ScheduleWait(WaitBle);
      } else if pendingSend.linkType == LINK_TYPE_2 {
        ScheduleWait(WaitFsk);
      } else if pendingSend.linkType == LINK_TYPE_3 {
        ScheduleWait(WaitLora);
      }
    }

    /** `dut_flow_select_fallback`. */
    method SelectFallback() returns (ok: bool)
      requires Valid()
      modifies this, pendingSend
      ensures Valid() && pendingSend == old(pendingSend)
      ensures Choice(Abs(), ok) == FlowModel.SelectFallback(env, old(Abs()))
      decreases Untried(Abs()), 2
    {
      hide FlowModel.FallbackTo, Candidate;
      if pendingSend == null || !pendingSend.allowFallback {
        return false;
      }
      ghost var before := Abs();
      pendingSend.MarkAttempt();
      assert Abs() == FlowModel.MarkAttempt(before);
      var mask := FallbackMask(linkStatusMask, cachedTimeValid, pendingSend.attemptedLinkMask);
      FallbackMaskMeans(linkStatusMask, cachedTimeValid, pendingSend.attemptedLinkMask);
      if mask == 0 {
        return false;
      }
      ok := FallbackTo(mask);
    }

    /** Move the pending message to another link, in place. */
    method SwitchPending(send: bv32)
      requires Valid() && pendingSend != null && SendLink(send).Some?
      modifies this, pendingSend
      ensures Valid() && pendingSend == old(pendingSend)
      ensures Abs() == SwitchTo(old(Abs()), SendLink(send).value)
    {
      pendingSend.linkType := send;
      pendingSend.targetLinkMask := TargetForSendLink(send);
      pendingSend.MarkAttempt();
      SetInflight(false);
      ResetRetries();
    }

    /** `dut_flow_fallback_to`. */
    method FallbackTo(send: bv32) returns (ok: bool)
      requires Valid() && SendLink(send).Some?
      requires pendingSend != null && pendingSend.allowFallback
      requires !Attempted(pendingSend.attemptedLinkMask, send)
      modifies this, pendingSend
      ensures Valid() && pendingSend == old(pendingSend)
      ensures Choice(Abs(), ok) == FlowModel.FallbackTo(env, old(Abs()), SendLink(send).value)
      decreases Untried(Abs()), 1
    {
      hide FlowModel.ReachTarget;
      SwitchPending(send);
      var e := ReachTarget(pendingSend.targetLinkMask);
      ok := e.NoError?;
    }

    /** `dut_flow_reach_target`. */
    method ReachTarget(target: bv32) returns (e: Err)
      requires Valid() && Target(target).Some?
      modifies this, pendingSend
      ensures Valid() && pendingSend == old(pendingSend)
      ensures Outcome(Abs(), e) == FlowModel.ReachTarget(env, old(Abs()), Target(target).value)
      decreases Untried(Abs()), 5
    {
      SyncCurrentLinkMask();
      SetTarget(target);
      if target == (LINK_TYPE_1 | LINK_TYPE_3) && !cachedTimeValid {
        e := BootstrapFsk();
      } else {
        e := GoToTarget(target);
      }
    }

    /** LoRa without cached time starts on FSK. */
    method BootstrapFsk() returns (e: Err)
      requires Valid()
      modifies this
      ensures Valid() && pendingSend == old(pendingSend)
      ensures Outcome(Abs(), e) == Bootstrap(env, old(Abs()))
    {
      if currentLinkMask != LINK_TYPE_2 {
        e := Transition(LINK_TYPE_2, false);
        if !e.NoError? {
          return e;
        }
      }
      ScheduleWait(WaitFsk);
      e := NoError;
    }

    method GoToTarget(target: bv32) returns (e: Err)
      requires Valid() && Target(target).Some?
      modifies this, pendingSend
      ensures Valid() && pendingSend == old(pendingSend)
      ensures Outcome(Abs(), e) == GoTo(env, old(Abs()), Target(target).value)
      decreases Untried(Abs()), 4
    {
      hide FlowModel.Transition, FlowModel.CancelWait, TryPending, Target, TargetIsReady;
      ghost var before := Abs();
      e := Transition(target, false);
      if e.NoError? {
        ghost var moved := Abs();
        if TargetIsReady(stateReady, linkStatusMask, target) {
          CancelWait();
          TryPendingSend();
        } else {
          ScheduleWaitFor(target);
        }
      }
    }

    // -------------------------------------------------------------- freeing and failing

    /** Free the pending context, if there is one, and forget it. */
    method FreePendingSend()
      requires Valid()
      modifies this`pendingSend, this`notes
      ensures Valid() && pendingSend == null && Abs() == FreePending(old(Abs()))
    {
      if pendingSend != null {
        notes := After(notes, Freed(pendingSend.tag));
        pendingSend := null;
      }
    }

    method ReleaseOwnership()
      requires Valid()
      modifies this`modeEnabled, this`blePolicyConfigured
      ensures Valid() && Abs() == Release(old(Abs()))
    {
      modeEnabled, blePolicyConfigured := false, false;
    }

    method SetTxRetries(n: nat)
      requires Valid()
      modifies this`txRetries
      ensures Valid() && Abs() == old(Abs()).(retries := old(Abs()).retries.(tx := n))
    {
      txRetries := n;
    }

    /** `dut_flow_fail_pending_send`. */
    method FailPendingSend()
      requires Valid()
      modifies this
      ensures Valid() && pendingSend == null && Abs() == FailPending(old(Abs()))
    {
      hide FreePending, Release, FlowModel.CancelWait;
      DropPendingSend();
      SetTxRetries(0);
      CancelWait();
      ReleaseOwnership();
    }

    /** Free the pending message and forget its target. */
    method DropPendingSend()
      requires Valid()
      modifies this`pendingSend, this`notes, this`sendInflight, this`targetLinkMask
      ensures Valid() && pendingSend == null
      ensures Abs() == FreePending(old(Abs())).(inflight := false, target := None)
    {
      hide FreePending;
      FreePendingSend();
      SetInflight(false);
      SetTarget(0);
    }

    /** Fall back, or drop the message when that is not possible. */
    method FallBackOrFail()
      requires Valid()
      modifies this, pendingSend
      ensures Valid() && (pendingSend == old(pendingSend) || pendingSend == null)
      ensures Abs() == FlowModel.FallBackOrFail(env, old(Abs()))
    {
      hide FlowModel.SelectFallback, FailPending, FlowModel.LogStatus;
      var fell := SelectFallback();
      if !fell {
        FailPendingSend();
      }
      LogStatus();
    }

    method SetLastStatus(ready: bool, synced: bool, mask: bv32)
      requires Valid()
      modifies this`stateReady, this`timeSynced, this`linkStatusMask
      ensures Valid() && Abs() == old(Abs()).(status := Status(ready, synced, Bits(mask)))
      ensures linkStatusMask == mask && stateReady == ready && timeSynced == synced
    {
      hide Target, ConfigOf;
      stateReady, timeSynced, linkStatusMask := ready, synced, mask;
    }

    /** `dut_flow_reset_state`. */
    method ResetState()
      requires Valid()
      modifies this
      ensures Valid() && pendingSend == null && Abs() == Reset(env, old(Abs()))
    {
      hide Target;
      CancelWait();
      FreePendingSend();
      ClearSession();
      SetLastStatus(env.zeroReady, false, 0);
    }

    method ClearSession()
      requires Valid() && pendingSend == null
      modifies this
      ensures Valid() && pendingSend == null
      ensures Abs() == old(Abs()).(mode := false, time := false, policy := false, current := None,
                         target := None, retries := NO_RETRIES, stage := Idle, inflight := false)
    {
      SetMode(false, false, false);
      ClearTargets();
    }

    method SetMode(mode: bool, time: bool, policy: bool)
      requires Valid()
      modifies this`modeEnabled, this`cachedTimeValid, this`blePolicyConfigured
      ensures Valid() && Abs() == old(Abs()).(mode := mode, time := time, policy := policy)
    {
      modeEnabled, cachedTimeValid, blePolicyConfigured := mode, time, policy;
    }

    method ClearTargets()
      requires Valid()
      modifies this
      ensures Valid() && pendingSend == old(pendingSend)
      ensures Abs() == old(Abs()).(current := None, target := None, retries := NO_RETRIES,
                                   stage := Idle, inflight := false)
    {
      SetCurrent(0);
      SetTarget(0);
      ResetRetries();
      SetIdle();
      SetInflight(false);
    }

    /** The stage alone; the work stays as it is. */
    method SetIdle()
      requires Valid()
      modifies this`stage
      ensures Valid() && Abs() == old(Abs()).(stage := Idle)
    {
      stage := Idle;
    }

    // -------------------------------------------------------------- sessions

    method SetHandle(value: bool)
      requires Valid()
      modifies this`hasHandle
      ensures Valid() && Abs() == old(Abs()).(handle := value)
    {
      hasHandle := value;
    }

    method SetAnyConfig(mask: bv32)
      requires Valid()
      modifies this`configLinkMask
      ensures Valid() && Abs() == old(Abs()).(config := ConfigOf(mask))
    {
      configLinkMask := mask;
    }

    /** `dut_flow_prepare_session`. */
    method PrepareSession() returns (e: Err)
      requires Valid()
      modifies this
      ensures Valid() && pendingSend == old(pendingSend)
      ensures Outcome(Abs(), e) == FlowModel.PrepareSession(env, old(Abs()))
    {
      hide FlowModel.Ask;
      if hasHandle && !modeEnabled {
        var _ := Ask(Deinit);
        SetHandle(false);
      }
      if hasHandle {
        return NoError;
      }
      e := Ask(CheckData);
      if !e.NoError? {
        return OtherError;
      }
      SetAnyConfig(LINK_TYPE_1 | LINK_TYPE_2 | LINK_TYPE_3);
      SetLastStatus(env.zeroReady, env.zeroSynced, 0);
      e := OpenSession();
    }

    /** `sid_init` for the flow and, on success, a fresh session. */
    method OpenSession() returns (e: Err)
      requires Valid()
      modifies this
      ensures Valid() && pendingSend == old(pendingSend)
      ensures Outcome(Abs(), e) == FlowModel.OpenSession(env, old(Abs()))
    {
      var handle := env.answer(count).handle;
      e := Ask(if env.answer(count).err.NoError? then Session else Init);
      if !e.NoError? {
        SetHandle(handle);
        return e;
      }
      StartSession();
    }

    method StartSession()
      requires Valid()
      modifies this
      ensures Valid() && pendingSend == old(pendingSend)
      ensures Abs() == NewSession(old(Abs()))
    {
      SetHandle(true);
      SetMode(true, false, false);
      ClearTargets();
    }

    // -------------------------------------------------------------- handlers

    /** `dut_event_flow_set`; any mask that is not a target is read as BLE. */
    method FlowSet(mask: bv32)
      requires Valid()
      modifies this, pendingSend
      ensures Valid() && pendingSend == old(pendingSend)
      ensures Abs() == FlowModel.FlowSet(env, old(Abs()), Target(NormalizeHelloMask(mask)).value)
    {
      hide FlowModel.PrepareSession, FlowModel.ReachTarget, FlowModel.LogStatus;
      var target := NormalizeHelloMask(mask);
      var e := PrepareSession();
      if !e.NoError? {
        return;
      }
      NotePendingRetarget();
      ResetRetries();
      var _ := ReachTarget(target);
      LogStatus();
    }

    ghost method NotePendingRetarget()
      requires Valid()
      modifies this`notes
      ensures Valid() && Abs() == NoteRetarget(old(Abs()))
    {
      if pendingSend != null {
        notes := After(notes, Retarget(pendingSend.tag));
      }
    }

    /** `dut_event_flow_switch`. */
    method FlowSwitch()
      requires Valid()
      modifies this, pendingSend
      ensures Valid() && pendingSend == old(pendingSend)
      ensures Abs() == FlowModel.FlowSwitch(env, old(Abs()))
    {
      hide FlowModel.FlowSet;
      var target := LINK_TYPE_2;
      SyncCurrentLinkMask();
      if currentLinkMask == LINK_TYPE_2 {
        target := LINK_TYPE_1 | LINK_TYPE_3;
      } else if currentLinkMask == (LINK_TYPE_1 | LINK_TYPE_3) {
        target := LINK_TYPE_1;
      }
      FlowSet(target);
    }

    /** `dut_event_flow_send`: takes over the context, or frees it. */
    method FlowSend(ctx: SendCtx)
      requires Valid() && ctx.FromShell() && ctx != pendingSend
      modifies this, pendingSend, ctx
      ensures Valid() && (pendingSend == null || pendingSend == ctx || pendingSend == old(pendingSend))
      ensures Abs() == FlowModel.FlowSend(env, old(Abs()), old(ctx.Request()))
    {
      hide FlowModel.PrepareSession, FlowModel.Submit, FlowModel.Replace;
      ghost var req := ctx.Request();
      var e := PrepareSession();
      if !e.NoError? {
        FreeRequest(ctx);
        return;
      }
      Replace(ctx);
      Submit();
    }

    ghost method FreeRequest(ctx: SendCtx)
      requires Valid()
      modifies this`notes
      ensures Valid() && Abs() == Note1(old(Abs()), Freed(ctx.tag))
    {
      notes := After(notes, Freed(ctx.tag));
    }

    /** The context becomes the pending message; an older one is freed. */
    method Replace(ctx: SendCtx)
      requires Valid() && ctx.FromShell() && ctx != pendingSend
      modifies this, ctx
      ensures Valid() && pendingSend == ctx
      ensures Abs() == FlowModel.Replace(old(Abs()), old(ctx.Request()))
    {
      ghost var req := ctx.Request();
      ctx.Take(linkStatusMask);
      assert ctx.Abs() == Accept(Abs(), req);
      FreePendingSend();
      SetInflight(false);
      Hold(ctx);
    }

    method Hold(ctx: SendCtx)
      requires Valid() && ctx.ValidPending()
      modifies this`pendingSend
      ensures Valid() && pendingSend == ctx && Abs() == old(Abs()).(pending := Some(ctx.Abs()))
    {
      pendingSend := ctx;
    }

    method Submit()
      requires Valid() && pendingSend != null
      modifies this, pendingSend
      ensures Valid() && pendingSend == old(pendingSend)
      ensures Abs() == FlowModel.Submit(env, old(Abs()))
    {
      hide TryPending, FlowModel.ReachDiscarding, FlowModel.LogStatus;
      if MaskIsReady(stateReady, linkStatusMask, pendingSend.linkType) {
        TryPendingSend();
        return;
      }
      ResetRetries();
      ReachDiscarding();
      LogStatus();
    }

    /** `(void)dut_flow_reach_target(...)` for the pending message. */
    method ReachDiscarding()
      requires Valid() && pendingSend != null
      modifies this, pendingSend
      ensures Valid() && pendingSend == old(pendingSend)
      ensures Abs() == FlowModel.ReachDiscarding(env, old(Abs()))
    {
      hide FlowModel.ReachTarget;
      var e := ReachTarget(NormalizeHelloMask(pendingSend.targetLinkMask));
      if !e.NoError? {
        notes := After(notes, Discard(pendingSend.tag));
      }
    }

    /** `dut_event_flow_cancel`. */
    method FlowCancel()
      requires Valid()
      modifies this
      ensures Valid() && pendingSend == null && Abs() == FlowModel.FlowCancel(old(Abs()))
    {
      hide FreePending, Release, FlowModel.LogStatus, FlowModel.CancelWait;
      DropPendingSend();
      CancelWait();
      ReleaseOwnership();
      LogStatus();
    }

    /** `dut_flow_timeout_event`. */
    method TimeoutEvent()
      requires Valid()
      modifies this, pendingSend
      ensures Valid() && (pendingSend == old(pendingSend) || pendingSend == null)
      ensures Abs() == Timeout(env, old(Abs()))
    {
      hide FlowModel.FallBackOrFail, FlowModel.Transition, FlowModel.LogStatus;
      if !modeEnabled || !hasHandle {
        CancelWait();
        return;
      }
      if stage.Idle? {
        return;
      }
      NotePendingTimeout();
      if RetriesUsedUp() {
        FallBackOrFail();
        return;
      }
      RetryStage();
    }

    ghost method NotePendingTimeout()
      requires Valid()
      modifies this`notes
      ensures Valid() && Abs() == NoteTimeout(old(Abs()))
    {
      if pendingSend != null {
        notes := After(notes, TimedOut(pendingSend.tag));
      }
    }

    predicate RetriesUsedUp()
      reads this
      requires !stage.Idle?
      ensures RetriesUsedUp() == !RetriesLeft(env, Retries(bleRetries, fskRetries, loraRetries, txRetries),
                                              StageLink(stage))
    {
      match stage
      case WaitBle => bleRetries >= env.maxBle
      case WaitFsk => fskRetries >= env.maxFsk
      case WaitLora => loraRetries >= env.maxLora
    }

    /** Count a retry of the stage's link and restart the link. */
    method RetryStage()
      requires Valid() && !stage.Idle?
      modifies this, pendingSend
      ensures Valid() && (pendingSend == old(pendingSend) || pendingSend == null)
      ensures Abs() == FlowModel.RetryStage(env, old(Abs()))
    {
      hide FlowModel.FallBackOrFail, FlowModel.Transition, FlowModel.LogStatus;
      var retryMask := CountStageRetry();
      var e := Transition(retryMask, true);
      if !e.NoError? {
        FallBackOrFail();
        return;
      }
      ScheduleWait(stage);
      LogStatus();
    }

    method CountStageRetry() returns (mask: bv32)
      requires Valid() && !stage.Idle?
      modifies this`bleRetries, this`fskRetries, this`loraRetries
      ensures Valid() && Target(mask) == Some(StageLink(stage))
      ensures Abs() == old(Abs()).(retries := CountRetry(old(Abs()).retries, StageLink(stage)))
    {
      match stage
      case WaitBle =>
        SetLinkRetries(bleRetries + 1, fskRetries, loraRetries);
        mask := LINK_TYPE_1;
      case WaitFsk =>
        SetLinkRetries(bleRetries, fskRetries + 1, loraRetries);
        mask := LINK_TYPE_2;
      case WaitLora =>
        SetLinkRetries(bleRetries, fskRetries, loraRetries + 1);
        mask := LINK_TYPE_1 | LINK_TYPE_3;
    }

    method SetLinkRetries(ble: nat, fsk: nat, lora: nat)
      requires Valid()
      modifies this`bleRetries, this`fskRetries, this`loraRetries
      ensures Valid()
      ensures Abs() == old(Abs()).(retries := Retries(ble, fsk, lora, old(Abs()).retries.tx))
    {
      bleRetries, fskRetries, loraRetries := ble, fsk, lora;
    }

    /** `dut_event_flow_tx_result`. */
    method TxResult(success: bool, link: bv32, kind: MsgType, id: nat, ghost no: nat)
      requires Valid()
      modifies this, pendingSend
      ensures Valid() && (pendingSend == old(pendingSend) || pendingSend == null)
      ensures Abs() == if SendLink(link).None? then old(Abs())
                       else FlowModel.TxResult(env, old(Abs()),
                                               Result(no, success, Desc(id, SendLink(link).value, kind)))
    {
      hide FlowModel.FallBackOrFail, FlowModel.RetrySend, FreePending, Target;
      if !modeEnabled || pendingSend == null || !sendInflight {
        return;
      }
      if !(pendingSend.id == id && pendingSend.linkType == link && pendingSend.kind == kind) {
        SendLinkInjective(pendingSend.linkType, link);
        return;
      }
      SettleResult(success, no);
    }

    lemma SendLinkInjective(a: bv32, b: bv32)
      requires SendLink(a).Some?
      ensures SendLink(a) == SendLink(b) <==> a == b
    {
    }

    /** A result that matches the attempt in flight. */
    method SettleResult(success: bool, ghost no: nat)
      requires Valid() && modeEnabled && pendingSend != null && sendInflight
      modifies this, pendingSend
      ensures Valid() && (pendingSend == old(pendingSend) || pendingSend == null)
      ensures Abs() == FlowModel.TxResult(env, old(Abs()), Result(no, success, old(Abs()).pending.value.desc))
    {
      hide FlowModel.FallBackOrFail, FlowModel.RetrySend, FreePending, Target;
      NoteSettled();
      if success {
        FreePendingSend();
        SetInflight(false);
        SetTxRetries(0);
        return;
      }
      SetInflight(false);
      if txRetries >= MAX_TX_RETRIES {
        FallBackOrFail();
        return;
      }
      RetrySend();
    }

    ghost method NoteSettled()
      requires Valid() && pendingSend != null
      modifies this`notes
      ensures Valid() && Abs() == Note1(old(Abs()), Settle(old(Abs()).pending.value.attempt))
    {
      notes := After(notes, Settle(pendingSend.attempt));
    }

    method RetrySend()
      requires Valid() && pendingSend != null
      modifies this, pendingSend
      ensures Valid() && pendingSend == old(pendingSend)
      ensures Abs() == FlowModel.RetrySend(env, old(Abs()))
    {
      hide TryPending, FlowModel.ReachDiscarding, FlowModel.LogStatus;
      CountTxRetry();
      if MaskIsReady(stateReady, linkStatusMask, pendingSend.linkType) {
        TryPendingSend();
      } else {
        ReachDiscarding();
      }
      LogStatus();
    }

    method CountTxRetry()
      requires Valid() && pendingSend != null
      modifies this`txRetries, this`targetLinkMask
      ensures Valid()
      ensures var s := old(Abs());
              Abs() == s.(retries := s.retries.(tx := s.retries.tx + 1),
                          target := Some(s.pending.value.desc.link))
    {
      SetTxRetries(txRetries + 1);
      SetTarget(pendingSend.targetLinkMask);
    }

    /** `sidewalk_event_new_status` followed by `dut_event_flow_on_status`. */
    method NewStatus(ready: bool, synced: bool, mask: bv32)
      requires Valid()
      modifies this, pendingSend
      ensures Valid() && pendingSend == old(pendingSend)
      ensures Abs() == FlowModel.NewStatus(env, old(Abs()), Status(ready, synced, Bits(mask)))
    {
      hide TryPending, FlowModel.LeaveFsk, FlowModel.Arrive, FlowModel.CacheTime, Sync;
      SetLastStatus(ready, synced, mask);
      if !modeEnabled || !hasHandle {
        return;
      }
      SyncCurrentLinkMask();
      CacheTime();
      LeaveFsk();
      Arrive();
      TryPendingSend();
    }

    method CacheTime()
      requires Valid()
      modifies this`cachedTimeValid, this`calls
      ensures Valid() && Abs() == FlowModel.CacheTime(old(Abs()))
    {
      if timeSynced {
        cachedTimeValid := true;
        calls := After(calls, Synced);
      }
    }

    /** A LoRa target waiting on FSK moves on once FSK is up and the time is known. */
    method LeaveFsk()
      requires Valid()
      modifies this
      ensures Valid() && pendingSend == old(pendingSend)
      ensures Abs() == FlowModel.LeaveFsk(env, old(Abs()))
    {
      hide FlowModel.Transition, FlowModel.CancelWait;
      if targetLinkMask == (LINK_TYPE_1 | LINK_TYPE_3) && currentLinkMask == LINK_TYPE_2
         && stateReady && cachedTimeValid && linkStatusMask & LINK_TYPE_2 != 0 {
        CancelWait();
        var e := Transition(targetLinkMask, false);
        ScheduleWait(if e.NoError? then WaitLora else WaitFsk);
      }
    }

    method Arrive()
      requires Valid()
      modifies this`targetLinkMask, this`stage, this`timer
      ensures Valid() && Abs() == FlowModel.Arrive(old(Abs()))
    {
      if targetLinkMask != 0 && TargetIsReady(stateReady, linkStatusMask, targetLinkMask) {
        CancelWait();
        SetTarget(0);
      }
    }

    // -------------------------------------------------------------- raw commands

    /** `dut_event_init`. */
    method DutInit(mask: bv32)
      requires Valid()
      modifies this
      ensures Valid() && pendingSend == null && Abs() == RawInit(env, old(Abs()), ConfigOf(mask))
    {
      hide FlowModel.Ask, Reset;
      ResetState();
      SetAnyConfig(mask);
      var e := Ask(CheckData);
      if !e.NoError? {
        return;
      }
      var answer := env.answer(count);
      e := Ask(Init);
      SetHandle(answer.err.NoError? || answer.handle);
    }

    /** `dut_event_deinit`. */
    method DutDeinit()
      requires Valid()
      modifies this
      ensures Valid() && pendingSend == null && Abs() == RawDeinit(env, old(Abs()))
    {
      hide FlowModel.Ask, Reset;
      var _ := Ask(Deinit);
      SetHandle(false);
      ResetState();
    }

    /** `dut_event_start` and `dut_event_stop`. */
    method DutStartStop()
      requires Valid()
      modifies this
      ensures Valid() && pendingSend == null && Abs() == RawStartStop(env, old(Abs()))
    {
      hide FlowModel.Ask, Reset;
      ResetState();
      var _ := Ask(Raw);
    }
  }
}

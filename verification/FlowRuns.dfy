/** The main results about the hello flow: they hold of every run from boot, for every
    sequence of events and every behaviour of the stack. */
module FlowRuns {
  import opened Links
  import opened FlowModel
  import opened FlowInvariant
  import opened FlowSteps
  import opened FlowDelivery

  /** How often message tag is handed to the flow. */
  ghost function Sends(evs: seq<Event>, tag: nat): nat
    decreases |evs|
  {
    if evs == [] then 0 else Sent(evs[0], tag) + Sends(evs[1..], tag)
  }

  /** Message tag is only ever handed over as a strict message for link l. */
  ghost predicate SentStrict(evs: seq<Event>, tag: nat, l: Link) {
    forall e :: e in evs && e.EvSend? && e.req.tag == tag ==> e.req.want == Some(l) && !e.req.allow
  }

  // ---------------------------------------------------------------- the invariant along a run

  /** The message was never put: it was, vacuously, put on BLE only and on FSK only. */
  ghost predicate Unsent(s: Flow, tag: nat) {
    Good(s, tag, Some(Ble)) && Good(s, tag, Some(Fsk))
  }

  lemma {:induction false} NeverPut(calls: Log<Call>, tag: nat)
    requires PutsOnlyOn(calls, tag, Ble) && PutsOnlyOn(calls, tag, Fsk)
    ensures Accepts(calls, tag) == 0
  {
    match calls
    case Nil =>
    case After(before, _) => NeverPut(before, tag);
  }

  lemma BootGood(env: Env, config: Config, tag: nat, only: Option<Link>)
    ensures Good(Boot(env, config), tag, only) && Covered(Boot(env, config))
  {
  }

  /** One step of a run in which message tag is handed over at most once more. */
  lemma StepGood(env: Env, s: Flow, e: Event, left: nat, tag: nat, only: Option<Link>)
    requires env.maxLora == 0 && Good(s, tag, only)
    requires Sent(e, tag) + left <= 1
    requires Sent(e, tag) + left == 1 ==> Unsent(s, tag)
    requires only.Some? && e.EvSend? && e.req.tag == tag ==> e.req.want == only && !e.req.allow
    ensures Good(Step(env, s, e), tag, only)
    ensures left == 1 ==> Unsent(Step(env, s, e), tag)
    ensures Admits(s, e, tag, only)
  {
    hide Step;
    if Sent(e, tag) == 1 {
      NeverPut(s.calls, tag);
    }
    StepKeeps(env, s, e, tag, only);
    if left == 1 {
      StepKeeps(env, s, e, tag, Some(Ble));
      StepKeeps(env, s, e, tag, Some(Fsk));
    }
  }

  lemma {:induction false} RunGood(env: Env, s: Flow, evs: seq<Event>, tag: nat, only: Option<Link>)
    requires env.maxLora == 0 && Good(s, tag, only)
    requires Sends(evs, tag) <= 1 && (Sends(evs, tag) == 1 ==> Unsent(s, tag))
    requires only.Some? ==> SentStrict(evs, tag, only.value)
    ensures Good(Run(env, s, evs), tag, only)
    decreases |evs|
  {
    hide Step, Good;
    if evs != [] {
      assert evs[0] in evs;
      StepGood(env, s, evs[0], Sends(evs[1..], tag), tag, only);
      RunGood(env, Step(env, s, evs[0]), evs[1..], tag, only);
    }
  }

  lemma BootRunGood(env: Env, config: Config, evs: seq<Event>, tag: nat, only: Option<Link>)
    requires env.maxLora == 0 && Sends(evs, tag) <= 1
    requires only.Some? ==> SentStrict(evs, tag, only.value)
    ensures Good(Run(env, Boot(env, config), evs), tag, only)
  {
    BootGood(env, config, tag, only);
    BootGood(env, config, tag, Some(Ble));
    BootGood(env, config, tag, Some(Fsk));
    RunGood(env, Boot(env, config), evs, tag, only);
  }

  /** Some tag is never handed over. */
  lemma {:induction false} UnusedTag(evs: seq<Event>) returns (tag: nat)
    ensures forall t: nat :: tag <= t ==> Sends(evs, t) == 0
    decreases |evs|
  {
    if evs == [] {
      tag := 0;
    } else {
      tag := UnusedTag(evs[1..]);
      if evs[0].EvSend? && tag <= evs[0].req.tag {
        tag := evs[0].req.tag + 1;
      }
    }
  }

  // ---------------------------------------------------------------- main results

  /** The whole-state invariant holds in every reachable state. */
  lemma ReachableShape(env: Env, config: Config, evs: seq<Event>)
    requires SourceLimits(env)
    ensures Shape(Run(env, Boot(env, config), evs))
  {
    var tag := UnusedTag(evs);
    BootRunGood(env, config, evs, tag, None);
  }

  /** No start with the LoRa bit before the time is known in the session. */
  lemma NoLoraBeforeTime(env: Env, config: Config, evs: seq<Event>)
    requires SourceLimits(env)
    ensures LoraAfterTime(Run(env, Boot(env, config), evs).calls)
  {
    var tag := UnusedTag(evs);
    BootRunGood(env, config, evs, tag, None);
  }

  /** The stack accepts a message at most nine times, and twice more per retarget. */
  lemma BoundedTransmissions(env: Env, config: Config, evs: seq<Event>, tag: nat)
    requires SourceLimits(env) && Sends(evs, tag) <= 1
    ensures var t := Run(env, Boot(env, config), evs);
            Accepts(t.calls, tag) <= 9 + 2 * Retargets(t.notes, tag)
  {
    BootRunGood(env, config, evs, tag, None);
  }

  /** A strict message has one transport: the stack accepts it at most three times, and twice more
      per retarget. */
  lemma StrictTransmissions(env: Env, config: Config, evs: seq<Event>, tag: nat, l: Link)
    requires SourceLimits(env) && Sends(evs, tag) <= 1 && SentStrict(evs, tag, l)
    ensures var t := Run(env, Boot(env, config), evs);
            Accepts(t.calls, tag) <= 3 + 2 * Retargets(t.notes, tag)
  {
    BootRunGood(env, config, evs, tag, Some(l));
  }

  /** A strict message is only ever put on its own transport. */
  lemma StrictStays(env: Env, config: Config, evs: seq<Event>, tag: nat, l: Link)
    requires SourceLimits(env) && Sends(evs, tag) <= 1 && SentStrict(evs, tag, l)
    ensures PutsOnlyOn(Run(env, Boot(env, config), evs).calls, tag, l)
  {
    BootRunGood(env, config, evs, tag, Some(l));
  }

  // ---------------------------------------------------------------- memory

  lemma {:induction false} RunConserves(env: Env, s: Flow, evs: seq<Event>, tag: nat)
    ensures Copies(Run(env, s, evs), tag) == Copies(s, tag) + Sends(evs, tag)
    decreases |evs|
  {
    hide Step;
    if evs != [] {
      StepCounts(env, s, evs[0], tag);
      RunConserves(env, Step(env, s, evs[0]), evs[1..], tag);
    }
  }

  /** A message handed over once is either still pending, and was never freed, or was freed
      exactly once; a message never handed over is never freed. */
  lemma FreedExactlyOnce(env: Env, config: Config, evs: seq<Event>, tag: nat)
    ensures var t := Run(env, Boot(env, config), evs);
            Frees(t.notes, tag) + Held(t, tag) == Sends(evs, tag)
  {
    RunConserves(env, Boot(env, config), evs, tag);
  }

  // ---------------------------------------------------------------- stranded messages

  /** No event of the run strands a message. */
  ghost predicate StrandFree(env: Env, s: Flow, evs: seq<Event>)
    decreases |evs|
  {
    evs == [] || (!Strands(env, s, evs[0]) && StrandFree(env, Step(env, s, evs[0]), evs[1..]))
  }

  lemma {:induction false} RunCovered(env: Env, s: Flow, evs: seq<Event>, other: nat)
    requires env.maxLora == 0 && Good(s, other, None) && Sends(evs, other) == 0
    requires Covered(s) && StrandFree(env, s, evs)
    ensures Covered(Run(env, s, evs))
    decreases |evs|
  {
    hide Step, Good, Covered, Strands;
    if evs != [] {
      StepKeeps(env, s, evs[0], other, None);
      StrandedExactly(env, s, evs[0], other);
      RunCovered(env, Step(env, s, evs[0]), evs[1..], other);
    }
  }

  /** A run of which no event meets the stranding condition leaves no message behind. */
  lemma NeverStranded(env: Env, config: Config, evs: seq<Event>)
    requires SourceLimits(env) && StrandFree(env, Boot(env, config), evs)
    ensures Covered(Run(env, Boot(env, config), evs))
  {
    var tag := UnusedTag(evs);
    BootGood(env, config, tag, None);
    RunCovered(env, Boot(env, config), evs, tag);
  }

  /** The pending message is covered, or something happened to it that may strand it. */
  ghost predicate CoveredOrNoted(s: Flow) {
    s.pending.Some? ==>
      || Covered(s)
      || Retargets(s.notes, s.pending.value.tag) > 0
      || Discards(s.notes, s.pending.value.tag) > 0
  }

  lemma StepCoveredOrNoted(env: Env, s: Flow, e: Event, other: nat)
    requires env.maxLora == 0 && Good(s, other, None) && Sent(e, other) == 0
    requires CoveredOrNoted(s)
    ensures CoveredOrNoted(Step(env, s, e))
  {
    hide Step, Good, Covered;
    var t := Step(env, s, e);
    if t.pending.Some? {
      StepCounts(env, s, e, t.pending.value.tag);
      assert Shape(s) by { GoodShape(s, other); }
      if e.EvSend? {
        SendCovered(env, s, e.req, other);
      } else if Covered(s) && !Retargeting(s, e) {
        StepCovers(env, s, e, other);
      }
    }
  }

  lemma GoodShape(s: Flow, tag: nat)
    requires Good(s, tag, None)
    ensures Shape(s)
  {
  }

  lemma SendCovered(env: Env, s: Flow, req: Request, other: nat)
    requires Good(s, other, None) && req.tag != other
    ensures var t := Step(env, s, EvSend(req));
            Covered(t) || Discarded(s, t)
  {
    SendKeeps(env, s, req, other, None);
  }

  lemma {:induction false} RunCoveredOrNoted(env: Env, s: Flow, evs: seq<Event>, other: nat)
    requires env.maxLora == 0 && Good(s, other, None) && Sends(evs, other) == 0
    requires CoveredOrNoted(s)
    ensures CoveredOrNoted(Run(env, s, evs))
    decreases |evs|
  {
    hide Step, Good, CoveredOrNoted;
    if evs != [] {
      StepKeeps(env, s, evs[0], other, None);
      StepCoveredOrNoted(env, s, evs[0], other);
      RunCoveredOrNoted(env, Step(env, s, evs[0]), evs[1..], other);
    }
  }

  /** In every run a pending message is in flight, or a wait is armed for its link, unless a
      set or switch came while it was pending or an error of reach_target was discarded. */
  lemma NeverSilentlyStranded(env: Env, config: Config, evs: seq<Event>)
    requires SourceLimits(env)
    ensures CoveredOrNoted(Run(env, Boot(env, config), evs))
  {
    var tag := UnusedTag(evs);
    BootGood(env, config, tag, None);
    RunCoveredOrNoted(env, Boot(env, config), evs, tag);
  }
}

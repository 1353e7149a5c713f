/** The target names of the flow commands of app_shell.c. */
module Targets {
  import opened Links
  import opened FlowModel
  import opened FlowInvariant
  import opened FlowRuns
  import opened LinkMasks
  import EventQueue
  import QueueRuns

  datatype Parsed = Parsed(target: bv32, send: bv32, fallback: bool)

  /** The transport that a strict target names. */
  function StrictName(arg: string): Option<Link> {
    if arg == "strict-ble" || arg == "ble-only" then Some(Ble)
    else if arg == "strict-fsk" || arg == "fsk-only" then Some(Fsk)
    else if arg == "strict-lora" || arg == "lora-only" then Some(Lora)
    else None
  }

  /** `cli_parse_hello_flow_target`. */
  function ParseTarget(arg: string): Option<Parsed> {
    if arg == "auto" || arg == "any" then Some(Parsed(0, LINK_TYPE_ANY, true))
    else if arg == "ble" then Some(Parsed(LINK_TYPE_1, LINK_TYPE_1, true))
    else if arg == "fsk" then Some(Parsed(LINK_TYPE_2, LINK_TYPE_2, true))
    else if arg == "lora" then Some(Parsed(LINK_TYPE_1 | LINK_TYPE_3, LINK_TYPE_3, true))
    else
      match StrictName(arg)
      case Some(Ble) => Some(Parsed(LINK_TYPE_1, LINK_TYPE_1, false))
      case Some(Fsk) => Some(Parsed(LINK_TYPE_2, LINK_TYPE_2, false))
      case Some(Lora) => Some(Parsed(LINK_TYPE_1 | LINK_TYPE_3, LINK_TYPE_3, false))
      case None => None
  }

  /** Every accepted name is automatic, or a link with its own target; and it forbids fallback
      exactly when it is a strict name. */
  lemma ParsedTargets(arg: string)
    requires ParseTarget(arg).Some?
    ensures var p := ParseTarget(arg).value;
            && ((p.target == 0 && p.send == LINK_TYPE_ANY) ||
                (SendLink(p.send).Some? && p.target == TargetForSendLink(p.send)))
            && (!p.fallback <==> StrictName(arg).Some?)
            && (StrictName(arg).Some? ==> SendLink(p.send) == StrictName(arg))
  {
  }

  /** What the flow is asked for by a command with this target. */
  function ShellRequest(arg: string, tag: nat, kind: MsgType, id: nat): FlowModel.Request
    requires ParseTarget(arg).Some?
  {
    var p := ParseTarget(arg).value;
    FlowModel.Request(tag, if p.target == 0 then None else SendLink(p.send), p.fallback, kind, id)
  }

  predicate NamesBle(arg: string) {
    arg == "ble" || arg == "strict-ble" || arg == "ble-only"
  }

  predicate NamesFsk(arg: string) {
    arg == "fsk" || arg == "strict-fsk" || arg == "fsk-only"
  }

  predicate NamesLora(arg: string) {
    arg == "lora" || arg == "strict-lora" || arg == "lora-only"
  }

  /** What every name asks the flow for: the transport it names, or an automatic one; fallback exactly
      for the five plain names; and any other word is refused. */
  lemma NamesMean(arg: string, tag: nat, kind: MsgType, id: nat)
    ensures ParseTarget(arg).Some? <==>
              arg == "auto" || arg == "any" || NamesBle(arg) || NamesFsk(arg) || NamesLora(arg)
    ensures ParseTarget(arg).Some? ==>
              var r := ShellRequest(arg, tag, kind, id);
              && (arg == "auto" || arg == "any" ==> r.want == None)
              && (NamesBle(arg) ==> r.want == Some(Ble))
              && (NamesFsk(arg) ==> r.want == Some(Fsk))
              && (NamesLora(arg) ==> r.want == Some(Lora))
              && (r.allow <==> arg == "auto" || arg == "any" || arg == "ble" || arg == "fsk" || arg == "lora")
              && r.tag == tag && r.kind == kind && r.id == id
  {
  }

  /** End to end: in every run of the system, a message sent with a strict target is only ever
      put on the transport that the target names. */
  lemma StrictCommandStays(env: Env, config: Config, capacity: nat, acts: seq<EventQueue.Action>,
                           tag: nat, arg: string)
    requires SourceLimits(env) && StrictName(arg).Some?
    requires var y := EventQueue.Acts(env, capacity, EventQueue.Start(env, config), acts);
             forall e :: e in y.done && e.EvSend? && e.req.tag == tag ==>
               e.req == ShellRequest(arg, tag, e.req.kind, e.req.id)
    ensures var y := EventQueue.Acts(env, capacity, EventQueue.Start(env, config), acts);
            PutsOnlyOn(y.flow.calls, tag, StrictName(arg).value)
  {
    var y := EventQueue.Acts(env, capacity, EventQueue.Start(env, config), acts);
    ParsedTargets(arg);
    QueueRuns.SystemBounds(env, config, capacity, acts, tag);
    QueueRuns.QueueIsFifo(env, config, capacity, acts);
    StrictStays(env, config, y.done, tag, StrictName(arg).value);
  }
}

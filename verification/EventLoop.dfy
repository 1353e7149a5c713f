/** The queue and the consumer thread of sidewalk.c over the statics of the flow.

    The object follows EventQueue's system action by action, so the results about all runs of
    that system hold of every state of the object. */
module EventLoop {
  import opened Links
  import opened FlowModel
  import opened FlowInvariant
  import opened FlowDelivery
  import opened FlowRuns
  import opened LinkMasks
  import opened HelloFlow
  import EventQueue
  import QueueRuns
  import QueueTimeouts

  const ENOMSG: int := 35   // what a full message queue answers without waiting, negated

  /** A queued handler with its context. */
  datatype Work =
    | SendWork(ctx: SendCtx)
    | SetWork(mask: bv32)
    | SwitchWork
    | CancelWork
    | ReportWork
    | StatusWork(ready: bool, synced: bool, mask: bv32)
    | TimeoutWork
    | ResultWork(no: nat, success: bool, link: bv32, kind: MsgType, id: nat)
    | InitWork(mask: bv32)
    | DeinitWork
    | StartStopWork
    | TaskWork(task: Task)
    | IdleWork

  predicate OwnsContext(w: Work) {
    || w.SetWork? || w.SendWork? || w.StatusWork? || w.ResultWork? || w.InitWork? || w.StartStopWork?
    || w.TaskWork?
  }

  /** Its producer ignores the answer of the queue. */
  predicate Careless(w: Work) {
    w.StatusWork? || (w.TaskWork? && !w.task.Guarded?)
  }

  /** `cmd_sbdt_cancel` with bad arguments. */
  predicate Abandons(w: Work) {
    w == TaskWork(CancelTransfer(false))
  }

  class EventLoop {
    const flow: HelloFlow
    const capacity: nat
    var queue: seq<Work>

    // For the proof: the configured mask, the actions so far, and the memory they left.
    ghost const config: Config
    ghost var acts: seq<EventQueue.Action>
    ghost var blocks: seq<Option<nat>>
    ghost var next: nat
    ghost var freed: Log<Note>
    ghost var leaked: Log<Note>
    ghost var posted: seq<Event>
    ghost var done: seq<Event>
    ghost var missed: bool

    ghost function Contexts(): set<SendCtx>
      reads this
    {
      set w | w in queue && w.SendWork? :: w.ctx
    }

    static ghost predicate Postable(w: Work)
      reads if w.SendWork? then {w.ctx} else {}
    {
      w.SendWork? ==> w.ctx.FromShell()
    }

    /** Every queued context is owned by its queue entry alone. */
    ghost predicate Owning()
      reads this, flow, flow.pendingSend, Contexts()
    {
      && flow.Valid() && |blocks| == |queue| <= capacity
      && (forall w :: w in queue ==> Postable(w))
      && (forall w :: w in queue && w.SendWork? ==> w.ctx != flow.pendingSend)
      && (forall i, j :: 0 <= i < j < |queue| && queue[i].SendWork? && queue[j].SendWork? ==>
            queue[i].ctx != queue[j].ctx)
    }

    static ghost function EventOf(w: Work): Event
      requires Postable(w)
      reads if w.SendWork? then {w.ctx} else {}
    {
      match w
      case SendWork(ctx) => EvSend(ctx.Request())
      case SetWork(mask) => EvSet(Target(NormalizeHelloMask(mask)).value)
      case SwitchWork => EvSwitch
      case CancelWork => EvCancel
      case ReportWork => EvReport
      case StatusWork(ready, synced, mask) => EvStatus(Status(ready, synced, Bits(mask)))
      case TimeoutWork => EvTimeout
      case ResultWork(no, success, link, kind, id) =>
        if SendLink(link).None? then EvForeign
        else EvResult(Result(no, success, Desc(id, SendLink(link).value, kind)))
      case InitWork(mask) => EvInit(ConfigOf(mask))
      case DeinitWork => EvDeinit
      case StartStopWork => EvStartStop
      case TaskWork(task) => EvTask(task)
      case IdleWork => EvIdle
    }

    ghost function Items(): (r: seq<EventQueue.Item>)
      requires Owning()
      reads this, flow, flow.pendingSend, Contexts()
      ensures |r| == |queue|
      ensures forall i :: 0 <= i < |r| ==> r[i] == EventQueue.Item(EventOf(queue[i]), blocks[i])
    {
      seq(|queue|, i requires 0 <= i < |queue| && Owning() reads this, flow, flow.pendingSend, Contexts() =>
        EventQueue.Item(EventOf(queue[i]), blocks[i]))
    }

    /** The system that the object stands for. */
    ghost function Sys(): EventQueue.System
      requires Owning()
      reads this, flow, flow.pendingSend, Contexts()
    {
      EventQueue.System(flow.Abs(), Items(), next, freed, leaked, posted, done, missed)
    }

    /** The object is where the actions so far lead the system. */
    ghost predicate Valid()
      reads this, flow, flow.pendingSend, Contexts()
    {
      Owning() && Sys() == Reached()
    }

    ghost function Reached(): EventQueue.System
      reads `acts
    {
      EventQueue.Acts(flow.env, capacity, EventQueue.Start(flow.env, config), acts)
    }

    constructor (env: Env, configLinkMask: bv32, capacity: nat)
      ensures Valid() && queue == [] && this.capacity == capacity && fresh(flow)
      ensures flow.env == env && flow.Abs() == Boot(env, ConfigOf(configLinkMask)) && next == 0
    {
      flow := new HelloFlow(env, configLinkMask);
      this.capacity, queue := capacity, [];
      config, acts, blocks, next := ConfigOf(configLinkMask), [], [], 0;
      freed, leaked, posted, done, missed := Nil, Nil, [], [], false;
    }

    /** The actions were performed one more time. */
    ghost method Acted(a: EventQueue.Action)
      requires Owning()
      requires Sys() == EventQueue.Act(flow.env, capacity, Reached(), a)
      modifies this`acts
      ensures Valid() && Sys() == old(Sys()) && acts == old(acts) + [a]
    {
      hide EventQueue.Act, EventOf;
      EventQueue.ActsAppend(flow.env, capacity, EventQueue.Start(flow.env, config), acts, a);
      acts := acts + [a];
      assert Items() == old(Items());
    }

    /** `sidewalk_event_send` without waiting: the context changes hands only on success. */
    method EventSend(w: Work, ghost block: Option<nat>) returns (err: int)
      requires Owning() && Postable(w)
      requires w.SendWork? ==> w.ctx !in Contexts() && w.ctx != flow.pendingSend
      modifies this`queue, this`blocks, this`posted
      ensures Owning()
      ensures err == if |old(queue)| < capacity then 0 else -ENOMSG
      ensures queue == if err == 0 then old(queue) + [w] else old(queue)
      ensures Sys() == if err == 0
                       then old(Sys()).(queue := old(Sys()).queue + [EventQueue.Item(EventOf(w), block)],
                                        posted := old(posted) + [EventOf(w)])
                       else old(Sys())
    {
      if |queue| == capacity {
        assert Items() == old(Items());
        return -ENOMSG;
      }
      queue := queue + [w];
      blocks := blocks + [block];
      posted := posted + [EventOf(w)];
      assert Items() == old(Items()) + [EventQueue.Item(EventOf(w), block)];
      err := 0;
    }

    /** `dut_flow_submit_tx_result` drops results that nothing waits for, and only the timeout work
        posts a timeout. */
    predicate Wanted(w: Work)
      reads flow
    {
      && (w.ResultWork? ==> flow.modeEnabled && flow.pendingSend != null && flow.sendInflight)
      && !w.TimeoutWork?
    }

    /** A result that no message in flight waits for, or a timeout that the work did not post. */
    predicate Ignored(w: Work)
      reads flow
    {
      || (w.ResultWork? && !(flow.modeEnabled && flow.pendingSend != null && flow.sendInflight))
      || w.TimeoutWork?
    }

    /** The commands that carry no context. */
    static predicate Bare(w: Work) {
      w.SwitchWork? || w.CancelWork? || w.ReportWork? || w.DeinitWork? || w.IdleWork?
    }

    lemma WantedMeans(w: Work)
      ensures Wanted(w) <==> !Ignored(w)
      ensures !Ignored(w) ==> (OwnsContext(w) <==> !Bare(w))
      ensures Abandons(w) <==> w == TaskWork(CancelTransfer(false))
    {
    }

    static lemma ContextMeans(w: Work)
      requires Postable(w)
      ensures EventQueue.HasContext(EventOf(w)) <==> OwnsContext(w)
      ensures EventOf(w).EvStatus? <==> w.StatusWork?
      ensures EventOf(w).EvSend? <==> w.SendWork?
      ensures EventOf(w).EvResult? || EventOf(w).EvForeign? <==> w.ResultWork?
      ensures EventOf(w).EvTimeout? <==> w.TimeoutWork?
      ensures !EventOf(w).EvExpire?
      ensures EventQueue.Careless(EventOf(w)) <==> Careless(w)
      ensures EventQueue.Abandons(EventOf(w)) <==> Abandons(w)
      ensures w.SendWork? ==> EventOf(w).req.tag == w.ctx.tag
      ensures EventOf(IdleWork) == EvIdle && !OwnsContext(IdleWork)
    {
    }

    /** A producer posts an event: `memory` says whether its context could be allocated.  A status
        is posted even without its copy.  A careless producer forgets a context that does not fit,
        and a cancel command with bad arguments forgets its own at once; every other context that
        does not fit is freed by its producer. */
    method Post(w: Work, memory: bool) returns (err: int)
      requires Valid() && Postable(w)
      requires w.SendWork? ==> memory && w.ctx !in Contexts() && w.ctx != flow.pendingSend && w.ctx.tag == next
      modifies this
      ensures Valid() && acts == old(acts) + [EventQueue.Post(EventOf(w), memory)]
      ensures Sys() == EventQueue.PostEvent(capacity, old(Sys()), EventOf(w), memory)
      ensures w.ResultWork? && memory && |old(queue)| < capacity ==>
                queue == if flow.modeEnabled && flow.pendingSend != null && flow.sendInflight then old(queue) + [w]
                         else old(queue)
      ensures Ignored(w) ==> queue == old(queue) && next == old(next)
      ensures !Ignored(w) && (Bare(w) || (memory && w != TaskWork(CancelTransfer(false)))) ==>
                && err == (if |old(queue)| < capacity then 0 else -ENOMSG)
                && queue == (if err == 0 then old(queue) + [w] else old(queue))
                && next == old(next) + if Bare(w) then 0 else 1
      ensures !Ignored(w) && !Bare(w) && !memory ==>
                && next == old(next)
                && queue == if w.StatusWork? && |old(queue)| < capacity then old(queue) + [IdleWork] else old(queue)
      ensures !w.SendWork? ==> Contexts() == old(Contexts())
    {
      hide EventQueue.PostEvent, EventOf, Reached, OwnsContext, Abandons;
      ghost var e := EventOf(w);
      WantedMeans(w);
      err := 0;
      if Wanted(w) {
        err := PostWanted(w, memory);
      } else {
        assert Sys() == EventQueue.PostEvent(capacity, Sys(), e, memory) by { PostsNothing(w, memory); }
      }
      Acted(EventQueue.Post(e, memory));
    }

    lemma PostsNothing(w: Work, memory: bool)
      requires Owning() && Postable(w) && !Wanted(w)
      ensures EventQueue.PostEvent(capacity, Sys(), EventOf(w), memory) == Sys()
    {
      ContextMeans(w);
      hide EventOf, Items;
    }

    method PostWanted(w: Work, memory: bool) returns (err: int)
      requires Owning() && Postable(w) && Wanted(w)
      requires w.SendWork? ==> memory && w.ctx !in Contexts() && w.ctx != flow.pendingSend && w.ctx.tag == next
      modifies this`queue, this`blocks, this`posted, this`next, this`freed, this`leaked
      ensures Owning() && Sys() == EventQueue.PostEvent(capacity, old(Sys()), EventOf(w), memory)
      ensures !OwnsContext(w) || (memory && !Abandons(w)) ==>
                && err == (if |old(queue)| < capacity then 0 else -ENOMSG)
                && queue == (if err == 0 then old(queue) + [w] else old(queue))
                && next == old(next) + if OwnsContext(w) then 1 else 0
      ensures OwnsContext(w) && !memory ==>
                && next == old(next)
                && queue == if w.StatusWork? && |old(queue)| < capacity then old(queue) + [IdleWork] else old(queue)
      ensures !w.SendWork? ==> Contexts() == old(Contexts())
    {
      ContextMeans(w);
      hide EventQueue.Enqueue, EventOf, OwnsContext, EventQueue.HasContext, Abandons, EventQueue.Abandons;
      err := 0;
      if OwnsContext(w) && !memory {
        if w.StatusWork? {
          err := PostContext(IdleWork);
        }
      } else if Abandons(w) {
        ForgetBlock();
      } else {
        err := PostContext(w);
      }
    }

    ghost method ForgetBlock()
      requires Owning()
      modifies this`next, this`leaked
      ensures Owning() && Sys() == EventQueue.Forget(old(Sys()))
    {
      leaked, next := After(leaked, Freed(next)), next + 1;
      assert Items() == old(Items());
    }

    /** The event with its context, or without one if it has none. */
    method PostContext(w: Work) returns (err: int)
      requires Owning() && Postable(w)
      requires w.SendWork? ==> w.ctx !in Contexts() && w.ctx != flow.pendingSend && w.ctx.tag == next
      modifies this`queue, this`blocks, this`posted, this`next, this`freed, this`leaked
      ensures Owning() && Sys() == EventQueue.Enqueue(capacity, old(Sys()), EventOf(w))
      ensures err == if |old(queue)| < capacity then 0 else -ENOMSG
      ensures queue == if err == 0 then old(queue) + [w] else old(queue)
      ensures next == old(next) + if OwnsContext(w) then 1 else 0
    {
      ContextMeans(w);
      hide EventOf, OwnsContext, EventQueue.HasContext, Careless, EventQueue.Careless, Owning, Sys, EventQueue.Forget;
      err := EventSend(w, if OwnsContext(w) then Some(next) else None);
      TakeBlock(w, err);
    }

    /** What becomes of the context of an event that was or was not accepted. */
    ghost method TakeBlock(w: Work, err: int)
      requires Owning() && Postable(w)
      modifies this`next, this`freed, this`leaked
      ensures Owning() && next == old(next) + if OwnsContext(w) then 1 else 0
      ensures Sys() == if !OwnsContext(w) then old(Sys())
                       else if err == 0 then old(Sys()).(next := old(next) + 1)
                       else if Careless(w) then EventQueue.Forget(old(Sys()))
                       else old(Sys()).(next := old(next) + 1, freed := After(old(freed), Freed(old(next))))
    {
      hide Postable, EventOf;
      if OwnsContext(w) {
        if err != 0 && Careless(w) {
          leaked := After(leaked, Freed(next));
        } else if err != 0 {
          freed := After(freed, Freed(next));
        }
        next := next + 1;
      }
      assert Items() == old(Items());
    }

    /** The pending context is none, the one before, or the one just handled. */
    ghost predicate Retained(before: SendCtx?, w: Work)
      reads flow
    {
      flow.pendingSend == null || flow.pendingSend == before || (w.SendWork? && flow.pendingSend == w.ctx)
    }

    /** One turn of `sid_thread_entry`: take the oldest event, run its handler, free its context. */
    method DispatchOne()
      requires Valid() && queue != []
      modifies this, flow, flow.pendingSend, if queue[0].SendWork? then {queue[0].ctx} else {}
      ensures Valid() && queue == old(queue)[1..] && acts == old(acts) + [EventQueue.Dispatch]
      ensures Retained(old(flow.pendingSend), old(queue)[0])
      ensures flow.Abs() == Step(flow.env, old(flow.Abs()), old(EventOf(queue[0])))
      ensures Sys() == EventQueue.DispatchOne(flow.env, old(Sys()))
    {
      hide Step, EventQueue.DispatchOne, Reached, EventOf;
      DispatchHead();
      Acted(EventQueue.Dispatch);
    }

    method DispatchHead()
      requires Owning() && queue != []
      modifies this`queue, this`blocks, this`done, this`freed, this`missed, flow, flow.pendingSend,
               if queue[0].SendWork? then {queue[0].ctx} else {}
      ensures Owning() && queue == old(queue)[1..] && Retained(old(flow.pendingSend), old(queue)[0])
      ensures flow.Abs() == Step(flow.env, old(flow.Abs()), old(EventOf(queue[0])))
      ensures Sys() == EventQueue.DispatchOne(flow.env, old(Sys()))
    {
      hide Step, EventOf;
      var head := queue[0];
      ghost var item := Items()[0];
      TakeHead();
      HandleHead(head);
      FinishHead(item);
    }

    method TakeHead()
      requires Owning() && queue != []
      modifies this`queue, this`blocks
      ensures Owning() && queue == old(queue)[1..] && blocks == old(blocks)[1..]
      ensures Items() == old(Items())[1..]
    {
      queue := queue[1..];
      blocks := blocks[1..];
      assert Items() == old(Items())[1..];
    }

    /** The context of a handled event is freed, unless the flow took it over. */
    ghost method FreeHead(item: EventQueue.Item)
      requires Owning()
      modifies this`freed
      ensures Owning()
      ensures Sys() == old(Sys()).(
                freed := if EventQueue.LoopFrees(item) then After(old(freed), Freed(item.block.value))
                         else old(freed))
    {
      if EventQueue.LoopFrees(item) {
        freed := After(freed, Freed(item.block.value));
      }
      assert Items() == old(Items());
    }

    ghost method FinishHead(item: EventQueue.Item)
      requires Owning()
      modifies this`done, this`freed, this`missed
      ensures Owning()
      ensures Sys() == old(Sys()).(
                done := old(done) + [item.event],
                freed := if EventQueue.LoopFrees(item) then After(old(freed), Freed(item.block.value))
                         else old(freed),
                missed := old(missed) && Unwatched(flow.Abs()))
    {
      hide EventQueue.LoopFrees;
      NoteDone(item.event);
      FreeHead(item);
      NoteMissed(missed && Unwatched(flow.Abs()));
    }

    /** The handler touches neither the queue nor the contexts in it. */
    method HandleHead(w: Work)
      requires Owning() && Postable(w)
      requires w.SendWork? ==> w.ctx !in Contexts() && w.ctx != flow.pendingSend
      modifies flow, flow.pendingSend, if w.SendWork? then {w.ctx} else {}
      ensures Owning() && Items() == old(Items()) && Retained(old(flow.pendingSend), w)
      ensures flow.Abs() == Step(flow.env, old(flow.Abs()), old(EventOf(w)))
    {
      hide Step;
      Handle(w);
      assert Items() == old(Items());
    }

    method Handle(w: Work)
      requires flow.Valid() && Postable(w) && (w.SendWork? ==> w.ctx != flow.pendingSend)
      modifies flow, flow.pendingSend, if w.SendWork? then {w.ctx} else {}
      ensures flow.Valid()
      ensures Retained(old(flow.pendingSend), w)
      ensures flow.Abs() == Step(flow.env, old(flow.Abs()), old(EventOf(w)))
    {
      hide Step, EventOf;
      match w
      case SendWork(_) => HandleCommand(w);
      case SetWork(_) => HandleCommand(w);
      case SwitchWork => HandleCommand(w);
      case CancelWork => HandleCommand(w);
      case ReportWork => HandleCommand(w);
      case StatusWork(_, _, _) => HandleReport(w);
      case TimeoutWork => HandleReport(w);
      case ResultWork(_, _, _, _, _) => HandleReport(w);
      case _ => HandleRaw(w);
    }

    /** The commands of the flow. */
    method HandleCommand(w: Work)
      requires flow.Valid() && Postable(w) && (w.SendWork? ==> w.ctx != flow.pendingSend)
      requires w.SendWork? || w.SetWork? || w.SwitchWork? || w.CancelWork? || w.ReportWork?
      modifies flow, flow.pendingSend, if w.SendWork? then {w.ctx} else {}
      ensures flow.Valid() && Retained(old(flow.pendingSend), w)
      ensures flow.Abs() == Step(flow.env, old(flow.Abs()), old(EventOf(w)))
    {
      hide FlowModel.FlowSet, FlowModel.FlowSwitch, FlowModel.FlowSend, FlowModel.FlowCancel, FlowModel.LogStatus,
           NormalizeHelloMask;
      match w
      case SendWork(ctx) => flow.FlowSend(ctx);
      case SetWork(mask) => flow.FlowSet(mask);
      case SwitchWork => flow.FlowSwitch();
      case CancelWork => flow.FlowCancel();
      case ReportWork => flow.LogStatus();
    }

    /** What the stack and the timer report. */
    method HandleReport(w: Work)
      requires flow.Valid() && Postable(w)
      requires w.StatusWork? || w.TimeoutWork? || w.ResultWork?
      modifies flow, flow.pendingSend
      ensures flow.Valid() && Retained(old(flow.pendingSend), w)
      ensures flow.Abs() == Step(flow.env, old(flow.Abs()), old(EventOf(w)))
    {
      hide FlowModel.NewStatus, FlowModel.TxResult, Timeout, Bits, SendLink, Target;
      match w
      case StatusWork(ready, synced, mask) => flow.NewStatus(ready, synced, mask);
      case TimeoutWork => flow.TimeoutEvent();
      case ResultWork(no, success, link, kind, id) => flow.TxResult(success, link, kind, id, no);
    }

    /** The raw commands, and the handlers that leave the flow alone. */
    method HandleRaw(w: Work)
      requires flow.Valid() && Postable(w)
      requires w.InitWork? || w.DeinitWork? || w.StartStopWork? || w.TaskWork? || w.IdleWork?
      modifies flow, flow.pendingSend
      ensures flow.Valid() && Retained(old(flow.pendingSend), w)
      ensures flow.Abs() == Step(flow.env, old(flow.Abs()), old(EventOf(w)))
    {
      hide RawInit, RawDeinit, RawStartStop, ConfigOf, Bits;
      match w
      case InitWork(mask) => flow.DutInit(mask);
      case DeinitWork => flow.DutDeinit();
      case StartStopWork => flow.DutStartStop();
      case TaskWork(_) =>
      case IdleWork =>
    }

    /** `dut_flow_timeout_work_handler`, when the work comes due: a timeout that does not fit into the
        queue is lost. */
    method Expire()
      requires Valid()
      modifies this, flow`timer
      ensures Valid() && acts == old(acts) + [EventQueue.Expire]
      ensures Sys() == EventQueue.ExpireOne(flow.env, capacity, old(Sys()))
      ensures Contexts() == old(Contexts())
      ensures queue == if old(flow.timer) && |old(queue)| < capacity then old(queue) + [TimeoutWork] else old(queue)
    {
      hide EventQueue.ExpireOne, Reached, Step, EventOf;
      RunTimeoutWork();
      Acted(EventQueue.Expire);
    }

    method RunTimeoutWork()
      requires Owning()
      modifies this`queue, this`blocks, this`posted, this`next, this`freed, this`leaked, this`done, this`missed,
               flow`timer
      ensures Owning() && Sys() == EventQueue.ExpireOne(flow.env, capacity, old(Sys()))
      ensures queue == if old(flow.timer) && |old(queue)| < capacity then old(queue) + [TimeoutWork] else old(queue)
    {
      hide EventQueue.Enqueue, EventOf, Owning, Postable;
      if !flow.timer {
        return;
      }
      StopTimer();
      NoteDone(EvExpire);
      var err := PostContext(TimeoutWork);
      NoteMissed(missed || err != 0);
    }

    method StopTimer()
      requires Owning()
      modifies flow`timer
      ensures Owning() && Postable(TimeoutWork) && EventOf(TimeoutWork) == EvTimeout
      ensures Sys() == old(Sys()).(flow := Step(flow.env, old(flow.Abs()), EvExpire))
    {
      flow.Expire();
      assert Items() == old(Items());
    }

    ghost method NoteDone(e: Event)
      requires Owning()
      modifies this`done
      ensures Owning() && Sys() == old(Sys()).(done := old(done) + [e])
    {
      done := done + [e];
      assert Items() == old(Items());
    }

    ghost method NoteMissed(value: bool)
      requires Owning()
      modifies this`missed
      ensures Owning() && Sys() == old(Sys()).(missed := value)
    {
      missed := value;
      assert Items() == old(Items());
    }

    /** A queued context is not the pending one, under whatever name: no two share a tag. */
    lemma TagsDiffer()
      requires Valid() && queue != [] && queue[0].SendWork? && flow.pendingSend != null
      ensures queue[0].ctx.tag != flow.pendingSend.tag
    {
      var b := queue[0].ctx.tag;
      QueueRuns.StartSound(flow.env, config, capacity, acts, b);
      assert QueueRuns.SendNamed(Sys().queue[0]);
      assert QueueRuns.Queued(Sys().queue, b) >= 1;
    }

    /** Whatever was posted and dispatched: every context ever allocated is queued, pending, freed
        once or leaked, the stack accepted no message more than nine times plus twice per retarget,
        and a wait has nothing to end it exactly if a timeout was missed. */
    lemma AnyTime(b: nat)
      requires Valid() && SourceLimits(flow.env)
      ensures Frees(flow.notes, b) + Frees(freed, b) + Frees(leaked, b)
                + QueueRuns.Queued(Items(), b) + Held(flow.Abs(), b) == if b < next then 1 else 0
      ensures Accepts(flow.calls, b) <= 9 + 2 * Retargets(flow.notes, b)
      ensures Shape(flow.Abs()) && LoraAfterTime(flow.calls)
      ensures (Unwatched(flow.Abs()) <==> missed) || EvTimeout in QueueRuns.Events(Items())
    {
      QueueRuns.MemoryConserved(flow.env, config, capacity, acts, b);
      QueueRuns.SystemBounds(flow.env, config, capacity, acts, b);
      QueueRuns.QueueIsFifo(flow.env, config, capacity, acts);
      ReachableShape(flow.env, config, done);
      NoLoraBeforeTime(flow.env, config, done);
      QueueTimeouts.WaitWatched(flow.env, config, capacity, acts);
    }
  }
}

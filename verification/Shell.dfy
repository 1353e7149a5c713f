/** The flow-send commands of app_shell.c, and every heap block of a message from its allocation
    to the one place that frees it. */
module Shell {
  import opened Links
  import opened FlowModel
  import opened FlowInvariant
  import opened FlowDelivery
  import opened LinkMasks
  import opened HelloFlow
  import opened EventLoop
  import opened SendOptions
  import opened Targets
  import EventQueue

  // ---------------------------------------------------------------- accounts of the heap

  /** Each context owns its own block and the block of its payload. */
  ghost function Blocks(cs: set<SendCtx>): set<nat> {
    (set c | c in cs :: c.block) + (set c | c in cs :: c.data)
  }

  ghost predicate Apart(c: SendCtx, d: SendCtx) {
    c.block != d.block && c.block != d.data && c.data != d.block && c.data != d.data
  }

  ghost predicate Separate(cs: set<SendCtx>) {
    && (forall c :: c in cs ==> c.block != c.data)
    && (forall c, d :: c in cs && d in cs && c != d ==> Apart(c, d))
  }

  /** The live blocks are those of the contexts, those a command works on, and those it lost; no
      block is two of these. */
  ghost predicate Accounts(cs: set<SendCtx>, lost: set<nat>, temp: set<nat>, live: set<nat>, next: nat) {
    && Separate(cs) && live == lost + temp + Blocks(cs)
    && lost !! temp && (lost + temp) !! Blocks(cs)
    && (forall b :: b in live ==> b < next)
  }

  lemma AddContext(cs: set<SendCtx>, c: SendCtx, lost: set<nat>, temp: set<nat>, live: set<nat>, next: nat)
    requires Accounts(cs, lost, temp, live, next) && c !in cs
    requires c.block in temp && c.data in temp && c.block != c.data
    ensures Accounts(cs + {c}, lost, temp - {c.block, c.data}, live, next)
  {
    assert Blocks(cs + {c}) == Blocks(cs) + {c.block, c.data};
    forall d | d in cs
      ensures Apart(c, d)
    {
      assert d.block in Blocks(cs) && d.data in Blocks(cs);
    }
  }

  lemma DropContext(cs: set<SendCtx>, c: SendCtx, lost: set<nat>, temp: set<nat>, live: set<nat>, next: nat)
    requires Accounts(cs, lost, temp, live, next) && c in cs
    ensures c.block in live && c.data in live && c.block != c.data
    ensures Accounts(cs - {c}, lost, temp, live - {c.block, c.data}, next)
  {
    assert Blocks(cs - {c}) == Blocks(cs) - {c.block, c.data} by {
      forall d | d in cs - {c}
        ensures Apart(d, c)
      {
      }
    }
  }

  lemma {:induction false} BlocksCount(cs: set<SendCtx>)
    requires Separate(cs)
    ensures |Blocks(cs)| == 2 * |cs|
    decreases cs
  {
    if c :| c in cs {
      var rest := cs - {c};
      BlocksCount(rest);
      assert Blocks(cs) == Blocks(rest) + {c.block, c.data};
      assert c.block !in Blocks(rest) && c.data !in Blocks(rest) by {
        assert forall d :: d in rest ==> Apart(c, d);
      }
    } else {
      assert Blocks(cs) == {};
    }
  }

  /** The n blocks from first on. */
  function Range(first: nat, n: nat): (r: set<nat>)
    ensures forall b :: b in r <==> first <= b < first + n
    ensures |r| == n
  {
    if n == 0 then {} else Range(first, n - 1) + {first + n - 1}
  }

  lemma RangeSplits(first: nat, n: nat)
    ensures Range(first, n) - Range(first, n) == {}
    ensures Range(first, n + 1) - Range(first, n) == {first + n}
  {
  }

  lemma RangeGrows(first: nat, n: nat)
    ensures Range(first, n + 1) == Range(first, n) + {first + n}
  {
  }

  /** `sidewalk_msg_t` and its payload, each in its own heap block. */
  datatype Message = Message(
    block: nat, data: nat, payload: seq<bv8>, linkType: bv32, kind: MsgType, id: nat, attr: Attributes)

  class Shell {
    const loop: EventLoop
    var sendLinkType: bv32
    var replyId: nat

    /** The blocks allocated and not yet freed, those among them that nothing points at, and the
        first block never used. */
    ghost var live: set<nat>
    ghost var lost: set<nat>
    var nextBlock: nat

    /** The contexts queued and pending. */
    ghost function Held(): set<SendCtx>
      reads loop, loop.flow
    {
      loop.Contexts() + if loop.flow.pendingSend == null then {} else {loop.flow.pendingSend}
    }

    /** While a command runs, temp are the blocks that it works on. */
    ghost predicate Heap(temp: set<nat>)
      reads this, loop, loop.flow, loop.flow.pendingSend, loop.Contexts()
    {
      loop.Valid() && Accounts(Held(), lost, temp, live, nextBlock)
    }

    /** Between commands every live block belongs to a queued or the pending message, or is lost. */
    ghost predicate Valid()
      reads this, loop, loop.flow, loop.flow.pendingSend, loop.Contexts()
    {
      Heap({})
    }

    constructor (loop: EventLoop)
      requires loop.Valid() && loop.queue == [] && loop.flow.pendingSend == null
      ensures Valid() && live == lost == {} && this.loop == loop
    {
      this.loop, sendLinkType, replyId, live, lost, nextBlock := loop, LINK_TYPE_ANY, 0, {}, {}, 0;
    }

    /** At any time the heap holds two blocks for every queued message and for the pending one, and
        the lost payloads. */
    lemma TwoBlocksEach()
      requires Valid()
      ensures |live| == |lost| + 2 * |Held()|
    {
      BlocksCount(Held());
      assert live == lost + Blocks(Held());
    }

    // -------------------------------------------------------------- the allocator

    method Malloc(ok: bool, ghost temp: set<nat>) returns (block: Option<nat>)
      requires Heap(temp)
      modifies this`live, this`nextBlock
      ensures Heap(if ok then temp + {old(nextBlock)} else temp)
      ensures block == if ok then Some(old(nextBlock)) else None
      ensures nextBlock == old(nextBlock) + if ok then 1 else 0
    {
      if !ok {
        return None;
      }
      block, live, nextBlock := Some(nextBlock), live + {nextBlock}, nextBlock + 1;
    }

    /** A block may be freed only while it is live, so nothing is freed twice. */
    ghost method Free(block: nat, temp: set<nat>)
      requires Heap(temp) && block in temp
      modifies this`live
      ensures Heap(temp - {block})
    {
      live := live - {block};
    }

    /** Nothing points at these blocks any more. */
    ghost method Forget(blocks: set<nat>, temp: set<nat>)
      requires Heap(temp) && blocks <= temp
      modifies this`lost
      ensures Heap(temp - blocks) && lost == old(lost) + blocks
    {
      lost := lost + blocks;
    }

    /** `free_sid_send_event_ctx`: the payload, then the message. */
    ghost method FreeMessage(m: Message)
      requires Heap({m.block, m.data}) && m.block != m.data
      modifies this`live
      ensures Valid()
    {
      Free(m.data, {m.block, m.data});
      assert {m.block, m.data} - {m.data} == {m.block};
      Free(m.block, {m.block});
      assert {m.block} - {m.block} == {};
    }

    // -------------------------------------------------------------- allocating a message

    /** `cmd_sid_alloc_payload_send`: on any failure nothing stays allocated. */
    method AllocPayloadSend(payload: seq<bv8>, linkType: bv32, ok: nat -> bool) returns (err: int, m: Option<Message>)
      requires Valid()
      modifies this`live, this`nextBlock
      ensures err == if payload == [] then -EINVAL else if ok(0) && ok(1) then 0 else -ENOMEM
      ensures err != 0 ==> m.None? && Valid()
      ensures err == 0 ==>
                && m == Some(Message(old(nextBlock), old(nextBlock) + 1, payload, linkType, Notify, 0,
                                     SAMPLE_ATTRIBUTES))
                && Heap({m.value.block, m.value.data})
    {
      hide Heap;
      if payload == [] {
        return -EINVAL, None;
      }
      var block := Malloc(ok(0), {});
      if block.None? {
        return -ENOMEM, None;
      }
      assert {} + {block.value} == {block.value};
      var data := Malloc(ok(1), {block.value});
      if data.None? {
        FreeLast(block.value);
        return -ENOMEM, None;
      }
      assert {block.value} + {data.value} == {block.value, data.value};
      return 0, Some(Message(block.value, data.value, payload, linkType, Notify, 0, SAMPLE_ATTRIBUTES));
    }

    method RememberReply(id: nat, ghost temp: set<nat>)
      requires Heap(temp)
      modifies this`replyId
      ensures Heap(temp) && replyId == id
    {
      replyId := id;
    }

    /** The option loop of `cmd_sid_alloc_send`; data is `msg.data`. */
    method ReadOptions(lib: Library, argv: seq<string>, link: bv32, ok: nat -> bool)
      returns (d: Draft, data: Option<nat>)
      requires Valid()
      modifies this`live, this`nextBlock, this`replyId
      ensures d == Options(lib, argv, ok, NewDraft(link, old(replyId))) && Sound(d)
      ensures replyId == d.reply && Tracks(old(nextBlock), d, data)
    {
      d, data := NewDraft(link, replyId), None;
      ghost var start, first := d, nextBlock;
      assert Sound(d) && Range(first, 0) == {} && Tracks(first, d, data);
      hide Tracks, StepOption, Sound;
      while d.err == 0 && d.opt < |argv|
        invariant Options(lib, argv, ok, d) == Options(lib, argv, ok, start)
        invariant Sound(d) && replyId == d.reply && Tracks(first, d, data)
        decreases |argv| - d.opt
      {
        d, data := ReadOption(lib, argv, ok, d, data, first);
      }
    }

    /** The blocks granted so far are the command's, and data is the last of them if it is held. */
    ghost predicate Tracks(first: nat, d: Draft, data: Option<nat>)
      reads this, loop, loop.flow, loop.flow.pendingSend, loop.Contexts()
    {
      && (data.Some? <==> d.data.Some?) && (data.Some? ==> data.value == first + Lost(d))
      && nextBlock == first + Granted(d) && Heap(Range(first, Granted(d)))
    }

    method ReadOption(lib: Library, argv: seq<string>, ok: nat -> bool, d: Draft, data: Option<nat>, ghost first: nat)
      returns (next: Draft, data': Option<nat>)
      requires d.err == 0 && d.opt < |argv| && Sound(d) && Tracks(first, d, data)
      modifies this`live, this`nextBlock, this`replyId
      ensures next == StepOption(lib, argv, d, ok(d.tries)) && Sound(next)
      ensures replyId == next.reply && Tracks(first, next, data')
    {
      hide Heap, Range, StepOption, Lost, Granted, Sound;
      StepSound(lib, argv, d, ok(d.tries));
      next, data' := StepOption(lib, argv, d, ok(d.tries)), data;
      RememberReply(next.reply, Range(first, Granted(d)));
      if next.tries != d.tries {
        data' := GrantPayload(ok(d.tries), first, Granted(d));
      }
    }

    /** The next block, if the allocator grants it. */
    method GrantPayload(ok: bool, ghost first: nat, ghost n: nat) returns (data: Option<nat>)
      requires nextBlock == first + n && Heap(Range(first, n))
      modifies this`live, this`nextBlock
      ensures data == if ok then Some(first + n) else None
      ensures nextBlock == first + (if ok then n + 1 else n)
      ensures Heap(Range(first, if ok then n + 1 else n))
    {
      hide Heap;
      RangeGrows(first, n);
      hide Range;
      data := Malloc(ok, Range(first, n));
    }

    /** `cmd_sid_alloc_send`: the message holds the last payload asked for, or else the last
        argument; every earlier payload is lost, whether the command succeeds or fails. */
    method AllocSend(lib: Library, argv: seq<string>, link: bv32, ok: nat -> bool)
      returns (err: int, m: Option<Message>, d: Draft)
      requires Valid() && argv != []
      modifies this`live, this`lost, this`nextBlock, this`replyId
      ensures d == Options(lib, argv, ok, NewDraft(link, old(replyId)))
      ensures replyId == d.reply && nextBlock >= old(nextBlock)
      ensures lost == old(lost) + Range(old(nextBlock), Lost(d))
      ensures err == SendError(d, ok)
      ensures err != 0 ==> m.None? && Valid()
      ensures err == 0 ==>
                && m.Some? && Heap({m.value.block, m.value.data}) && m.value.block != m.value.data
                && m.value.payload == (if d.data.Some? then d.data.value else Bytes(argv[|argv| - 1]))
                && m.value.linkType == d.link && m.value.kind == d.kind && m.value.attr == d.attr
                && m.value.id == if d.kind.Response? then d.reply else 0
    {
      hide Heap, Options, Range, Lost;
      var data;
      d, data := KeepLast(lib, argv, link, ok);
      if d.err != 0 {
        if data.Some? {
          FreeLast(data.value);
        }
        return d.err, None, d;
      }
      err, m := BuildMessage(d, data, argv, ok);
    }

    /** The option loop, which leaves the command with its last payload. */
    method KeepLast(lib: Library, argv: seq<string>, link: bv32, ok: nat -> bool)
      returns (d: Draft, data: Option<nat>)
      requires Valid()
      modifies this`live, this`lost, this`nextBlock, this`replyId
      ensures d == Options(lib, argv, ok, NewDraft(link, old(replyId))) && Sound(d)
      ensures replyId == d.reply && nextBlock >= old(nextBlock) && (data.Some? <==> d.data.Some?)
      ensures lost == old(lost) + Range(old(nextBlock), Lost(d))
      ensures Heap(if data.Some? then {data.value} else {})
    {
      hide Heap, Range, Options, Lost;
      ghost var first := nextBlock;
      d, data := ReadOptions(lib, argv, link, ok);
      RangeSplits(first, Lost(d));
      Forget(Range(first, Lost(d)), Range(first, Granted(d)));
    }

    /** The message around a payload; without one the last argument is the payload. */
    method BuildMessage(d: Draft, held: Option<nat>, argv: seq<string>, ok: nat -> bool)
      returns (err: int, m: Option<Message>)
      requires d.err == 0 && Sound(d) && (held.Some? <==> d.data.Some?) && argv != []
      requires Heap(if held.Some? then {held.value} else {})
      modifies this`live, this`nextBlock
      ensures nextBlock >= old(nextBlock) && err == SendError(d, ok)
      ensures err != 0 ==> m.None? && Valid()
      ensures err == 0 ==>
                && m.Some? && Heap({m.value.block, m.value.data}) && m.value.block != m.value.data
                && m.value.payload == (if d.data.Some? then d.data.value else Bytes(argv[|argv| - 1]))
                && m.value.linkType == d.link && m.value.kind == d.kind && m.value.attr == d.attr
                && m.value.id == if d.kind.Response? then d.reply else 0
    {
      hide Heap;
      var data := held;
      if data.None? {
        data := Malloc(ok(0), {});
        if data.None? {
          return -ENOMEM, None;
        }
        assert {} + {data.value} == {data.value};
      }
      var block := AllocStruct(ok(Requests(d)), data.value);
      if block.None? {
        return -ENOMEM, None;
      }
      var payload := if d.data.Some? then d.data.value else Bytes(argv[|argv| - 1]);
      m := Some(Message(block.value, data.value, payload, d.link, d.kind, if d.kind.Response? then d.reply else 0,
                        d.attr));
      err := 0;
    }

    /** The block of the message itself; without it the payload is freed. */
    method AllocStruct(ok: bool, data: nat) returns (block: Option<nat>)
      requires Heap({data})
      modifies this`live, this`nextBlock
      ensures nextBlock >= old(nextBlock) && (block.Some? <==> ok)
      ensures block.None? ==> Valid()
      ensures block.Some? ==> Heap({block.value, data}) && block.value != data
    {
      BelowNext(data, {data});
      hide Heap;
      block := Malloc(ok, {data});
      if block.None? {
        FreeLast(data);
      } else {
        assert {data} + {block.value} == {block.value, data};
      }
    }

    lemma BelowNext(block: nat, temp: set<nat>)
      requires Heap(temp) && block in temp
      ensures block < nextBlock
    {
    }

    ghost method FreeLast(block: nat)
      requires Heap({block})
      modifies this`live
      ensures Valid()
    {
      Free(block, {block});
      assert {block} - {block} == {};
    }

    // -------------------------------------------------------------- queueing a message

    /** `cmd_sid_flow_queue_send`: the message moves into a flow-send context and into the queue,
        or all of it is freed. */
    method QueueSend(target: bv32, m: Message, fallback: bool, ok: bool) returns (err: int)
      requires Heap({m.block, m.data}) && m.block != m.data
      requires target == 0 || m.linkType == LINK_TYPE_ANY ||
               (SendLink(m.linkType).Some? && target == TargetForSendLink(m.linkType))
      modifies this`live, this`nextBlock, this`sendLinkType, loop
      ensures Valid()
      ensures sendLinkType == if ok then m.linkType else old(sendLinkType)
      ensures err == if !ok then -ENOMEM else if |old(loop.queue)| < loop.capacity then 0 else -ENOMSG
      ensures err != 0 ==> loop.queue == old(loop.queue)
      ensures err == 0 ==>
                && |loop.queue| == |old(loop.queue)| + 1 && loop.queue[..|old(loop.queue)|] == old(loop.queue)
                && Carries(loop.queue[|old(loop.queue)|], target, m, fallback)
                && loop.queue[|old(loop.queue)|].ctx.tag == old(loop.next)
    {
      hide Heap;
      BelowNext(m.block, {m.block, m.data});
      BelowNext(m.data, {m.block, m.data});
      var block := Malloc(ok, {m.block, m.data});
      if block.None? {
        FreeMessage(m);
        return -ENOMEM;
      }
      var ctx := FillContext(target, m, fallback, block.value);
      err := PostSend(ctx, {m.data, block.value});
      if err != 0 {
        assert {m.data, block.value} == {block.value, m.data};
        FreeMessage(Message(block.value, m.data, m.payload, m.linkType, m.kind, m.id, m.attr));
      }
    }

    /** The message copied into its send context, and its own block freed. */
    method FillContext(target: bv32, m: Message, fallback: bool, block: nat) returns (ctx: SendCtx)
      requires Heap({m.block, m.data} + {block}) && m.block != m.data && block != m.block && block != m.data
      modifies this`sendLinkType, this`live
      ensures Heap({m.data, block}) && sendLinkType == m.linkType
      ensures ctx !in Held() && ctx.FromShell() == (target == 0 || m.linkType == LINK_TYPE_ANY
                || (SendLink(m.linkType).Some? && target == TargetForSendLink(m.linkType)))
      ensures fresh(ctx) && ctx.tag == loop.next && ctx.block == block && ctx.data == m.data
      ensures Carries(SendWork(ctx), target, m, fallback)
    {
      sendLinkType := m.linkType;
      ctx := new SendCtx(target, m.linkType, fallback, m.kind, m.id, m.attr, block, m.data, loop.next);
      live := live - {m.block};
      assert {m.block, m.data} + {block} - {m.block} == {m.data, block};
    }

    method PostSend(ctx: SendCtx, ghost temp: set<nat>) returns (err: int)
      requires Heap(temp) && temp == {ctx.data, ctx.block} && ctx.data != ctx.block
      requires ctx.FromShell() && ctx.tag == loop.next && ctx !in Held()
      modifies loop
      ensures err == if |old(loop.queue)| < loop.capacity then 0 else -ENOMSG
      ensures loop.queue == if err == 0 then old(loop.queue) + [SendWork(ctx)] else old(loop.queue)
      ensures Heap(if err == 0 then {} else temp)
    {
      hide Accounts;
      ghost var held := Held();
      AddContext(held, ctx, lost, temp, live, nextBlock);
      assert temp - {ctx.block, ctx.data} == {};
      err := loop.Post(SendWork(ctx), true);
      assert Held() == if err == 0 then held + {ctx} else held;
    }

    /** The queue entry carries exactly this message. */
    ghost predicate Carries(w: Work, target: bv32, m: Message, fallback: bool)
      reads if w.SendWork? then {w.ctx} else {}
    {
      && w.SendWork? && w.ctx.targetLinkMask == target && w.ctx.linkType == m.linkType
      && w.ctx.allowFallback == fallback && w.ctx.attemptedLinkMask == 0
      && w.ctx.kind == m.kind && w.ctx.id == m.id && w.ctx.attr == m.attr && w.ctx.data == m.data
    }

    // -------------------------------------------------------------- the commands

    /** `cmd_sid_flow_send`: the target name decides the link, whatever link an option asked for.
        Each payload but the last is lost, on success and on failure; nothing else is. */
    method FlowSend(lib: Library, argv: seq<string>, ok: nat -> bool) returns (err: int, ghost d: Draft)
      requires Valid()
      modifies this`live, this`lost, this`nextBlock, this`replyId, this`sendLinkType, loop
      ensures Valid()
      ensures 3 <= |argv| <= 16 && ParseTarget(argv[1]).Some? ==>
                && d == Options(lib, argv, ok, FirstDraft(argv[1], old(replyId)))
                && lost == old(lost) + Range(old(nextBlock), Lost(d)) && replyId == d.reply
                && err == (if SendError(d, ok) != 0 then SendError(d, ok)
                           else if !ok(Requests(d) + 1) then -ENOMEM
                           else if |old(loop.queue)| < loop.capacity then 0 else -ENOMSG)
      ensures !(3 <= |argv| <= 16 && ParseTarget(argv[1]).Some?) ==> err == -EINVAL && lost == old(lost)
      ensures err != 0 ==> loop.queue == old(loop.queue)
      ensures err == 0 ==>
                && |loop.queue| == |old(loop.queue)| + 1 && loop.queue[..|old(loop.queue)|] == old(loop.queue)
                && Requested(loop.queue[|old(loop.queue)|], argv[1], old(loop.next), d.kind, d.reply, d.attr)
    {
      hide Heap, Range, Options, Lost;
      d := NewDraft(0, replyId);
      if |argv| < 3 || |argv| > 16 {
        return -EINVAL, d;
      }
      var parsed := ParseTarget(argv[1]);
      if parsed.None? {
        return -EINVAL, d;
      }
      ParsedTargets(argv[1]);
      var p := parsed.value;
      var m, draft;
      err, m, draft := AllocSend(lib, argv, p.send, ok);
      d := draft;
      if err == 0 {
        err := QueueSend(p.target, m.value.(linkType := p.send), p.fallback, ok(Requests(draft) + 1));
      }
    }

    static function FirstDraft(target: string, reply: nat): Draft
      requires ParseTarget(target).Some?
    {
      NewDraft(ParseTarget(target).value.send, reply)
    }

    /** The queue entry is the send that the command asks for. */
    ghost predicate Requested(w: Work, target: string, tag: nat, kind: MsgType, reply: nat, attr: Attributes)
      requires ParseTarget(target).Some?
      reads if w.SendWork? then {w.ctx} else {}
    {
      && w.SendWork? && w.ctx.FromShell() && w.ctx.attr == attr
      && w.ctx.Request() == ShellRequest(target, tag, kind, if kind.Response? then reply else 0)
    }

    /** The sample commands (`cmd_sid_flow_sample_send`), from a printed payload on: they lose
        nothing. */
    method SampleSend(target: string, payload: seq<bv8>, ok: nat -> bool) returns (err: int)
      requires Valid()
      modifies this`live, this`nextBlock, this`sendLinkType, loop
      ensures Valid()
      ensures err == 0 <==> ParseTarget(target).Some? && payload != [] && ok(0) && ok(1) && ok(2)
                            && |old(loop.queue)| < loop.capacity
      ensures err != 0 ==> loop.queue == old(loop.queue)
      ensures err == 0 ==>
                && |loop.queue| == |old(loop.queue)| + 1 && loop.queue[..|old(loop.queue)|] == old(loop.queue)
                && Requested(loop.queue[|old(loop.queue)|], target, old(loop.next), Notify, 0, SAMPLE_ATTRIBUTES)
    {
      hide Heap;
      var parsed := ParseTarget(target);
      if parsed.None? {
        return -EINVAL;
      }
      ParsedTargets(target);
      var p := parsed.value;
      var m;
      err, m := AllocPayloadSend(payload, p.send, ok);
      if err == 0 {
        err := QueueSend(p.target, m.value, p.fallback, ok(2));
      }
    }

    // -------------------------------------------------------------- everything else

    /** Any other producer of events. */
    method PostOther(w: Work, memory: bool)
      requires Valid() && !w.SendWork?
      modifies loop
      ensures Valid()
      ensures loop.Sys() == EventQueue.PostEvent(loop.capacity, old(loop.Sys()), EventLoop.EventOf(w), memory)
    {
      hide Accounts;
      var err := loop.Post(w, memory);
    }

    /** The timeout work comes due. */
    method Expire()
      requires Valid()
      modifies loop, loop.flow`timer
      ensures Valid()
      ensures loop.Sys() == EventQueue.ExpireOne(loop.flow.env, loop.capacity, old(loop.Sys()))
    {
      hide Accounts;
      loop.Expire();
    }

    /** The consumer handles one event, and frees the context and the payload of every message that
        its handler noted as freed: exactly those that are neither queued nor pending any more. */
    method Dispatch()
      requires Valid() && loop.queue != []
      modifies this`live, loop, loop.flow, loop.flow.pendingSend,
               if loop.queue[0].SendWork? then {loop.queue[0].ctx} else {}
      ensures Valid() && loop.queue == old(loop.queue)[1..]
      ensures loop.Sys() == EventQueue.DispatchOne(loop.flow.env, old(loop.Sys()))
    {
      hide Accounts, Frees, EventLoop.Reached, EventLoop.Sys, EventQueue.DispatchOne;
      ghost var before, held, notes := loop.flow.pendingSend, Held(), loop.flow.notes;
      ghost var head: SendCtx? := if loop.queue[0].SendWork? then loop.queue[0].ctx else null;
      DispatchNoted();
      ghost var rest := held;
      if before != null {
        rest := FreeIfNoted(before, rest, notes);
      }
      if head != null {
        rest := FreeIfNoted(head, rest, notes);
      }
      assert rest == Held();
    }

    /** The flow notes as freed exactly the message before and the message handled that it does not
        keep. */
    method DispatchNoted()
      requires loop.Valid() && loop.queue != []
      modifies loop, loop.flow, loop.flow.pendingSend,
               if loop.queue[0].SendWork? then {loop.queue[0].ctx} else {}
      ensures loop.Valid() && loop.queue == old(loop.queue)[1..]
      ensures loop.Sys() == EventQueue.DispatchOne(loop.flow.env, old(loop.Sys()))
      ensures loop.Retained(old(loop.flow.pendingSend), old(loop.queue)[0])
      ensures old(loop.flow.pendingSend) != null ==> Noted(old(loop.flow.pendingSend), old(loop.flow.notes))
      ensures old(loop.queue)[0].SendWork? ==> Noted(old(loop.queue)[0].ctx, old(loop.flow.notes))
    {
      hide Step;
      ghost var before, head := loop.flow.pendingSend, loop.queue[0];
      ghost var s, e := loop.flow.Abs(), EventLoop.EventOf(head);
      if before != null && head.SendWork? {
        loop.TagsDiffer();
      }
      loop.DispatchOne();
      if before != null {
        StepCounts(loop.flow.env, s, e, before.tag);
      }
      if head.SendWork? {
        StepCounts(loop.flow.env, s, e, head.ctx.tag);
      }
    }

    ghost predicate Noted(c: SendCtx, before: Log<Note>)
      reads loop.flow
    {
      Frees(loop.flow.notes, c.tag) > Frees(before, c.tag) <==> loop.flow.pendingSend != c
    }

    /** `dut_flow_send_ctx_free`, where the flow noted it. */
    ghost method FreeIfNoted(c: SendCtx, cs: set<SendCtx>, before: Log<Note>) returns (rest: set<SendCtx>)
      requires c in cs && Accounts(cs, lost, {}, live, nextBlock)
      modifies this`live
      ensures rest == if Frees(loop.flow.notes, c.tag) > Frees(before, c.tag) then cs - {c} else cs
      ensures Accounts(rest, lost, {}, live, nextBlock)
    {
      rest := cs;
      if Frees(loop.flow.notes, c.tag) > Frees(before, c.tag) {
        DropContext(cs, c, lost, {}, live, nextBlock);
        rest, live := cs - {c}, live - {c.block, c.data};
      }
    }
  }
}

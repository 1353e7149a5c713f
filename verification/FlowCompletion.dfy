/** Transmit results and timeouts: which attempt a result belongs to, how often an attempt
    settles, and how many timeouts a message survives. */
module FlowCompletion {
  import opened Links
  import opened FlowModel
  import opened FlowInvariant
  import opened FlowSteps
  import opened FlowDelivery
  import opened FlowRuns

  // ---------------------------------------------------------------- exact completion

  /** The stack accepted a message other than a response under this id. */
  ghost predicate UsedId(calls: Log<Call>, id: nat) {
    match calls
    case Nil => false
    case After(before, last) =>
      UsedId(before, id) || (last.Put? && last.ok && !last.desc.kind.Response? && last.desc.id == id)
  }

  /** The stack gives every accepted message other than a response a fresh id. */
  ghost predicate FreshIds(calls: Log<Call>) {
    match calls
    case Nil => true
    case After(before, last) =>
      FreshIds(before) &&
      (last.Put? && last.ok && !last.desc.kind.Response? ==> !UsedId(before, last.desc.id))
  }

  lemma {:induction false} AcceptedUses(calls: Log<Call>, no: nat, tag: nat, d: Desc)
    requires Accepted(calls, no, tag, d) && !d.kind.Response?
    ensures UsedId(calls, d.id)
  {
    if calls.last != Put(no, tag, d, true) {
      AcceptedUses(calls.before, no, tag, d);
    }
  }

  /** Under fresh ids a descriptor names one attempt. */
  lemma {:induction false} DescNamesAttempt(calls: Log<Call>, d: Desc, no: nat, tag: nat, no': nat, tag': nat)
    requires FreshIds(calls) && !d.kind.Response?
    requires Accepted(calls, no, tag, d) && Accepted(calls, no', tag', d)
    ensures no == no' && tag == tag'
  {
    if calls.last == Put(no, tag, d, true) {
      if calls.last != Put(no', tag', d, true) {
        AcceptedUses(calls.before, no', tag', d);
      }
    } else if calls.last == Put(no', tag', d, true) {
      AcceptedUses(calls.before, no, tag, d);
    } else {
      DescNamesAttempt(calls.before, d, no, tag, no', tag');
    }
  }

  /** A result of attempt no of message tag changes the state only if that attempt is the one
      in flight: results of replaced, cancelled, retried and fallen-back attempts do nothing. */
  lemma ExactCompletion(env: Env, config: Config, evs: seq<Event>, res: Result, tag: nat)
    requires SourceLimits(env)
    requires var s := Run(env, Boot(env, config), evs);
             FreshIds(s.calls) && Accepted(s.calls, res.no, tag, res.desc) && !res.desc.kind.Response?
    ensures var s := Run(env, Boot(env, config), evs);
            TxResult(env, s, res) != s ==>
              s.inflight && s.pending.value.attempt == res.no && s.pending.value.tag == tag
  {
    var s := Run(env, Boot(env, config), evs);
    var other := UnusedTag(evs);
    BootRunGood(env, config, evs, other, None);
    if Matches(s, res) {
      var m := s.pending.value;
      DescNamesAttempt(s.calls, res.desc, res.no, tag, m.attempt, m.tag);
    }
  }

  // ---------------------------------------------------------------- replies

  /** A number names one accepted attempt. */
  lemma {:induction false} AttemptNamed(calls: Log<Call>, n: nat, no: nat, tag: nat, d: Desc, tag': nat, d': Desc)
    requires NumberedBelow(calls, n) && Accepted(calls, no, tag, d) && Accepted(calls, no, tag', d')
    ensures tag == tag' && d == d'
  {
    var last, before := calls.last, calls.before;
    if last == Put(no, tag, d, true) {
      if last != Put(no, tag', d', true) {
        AcceptedBelow(before, no, no, tag', d');
      }
    } else if last == Put(no, tag', d', true) {
      AcceptedBelow(before, no, no, tag, d);
    } else {
      AttemptNamed(before, if last.Put? then last.no else n, no, tag, d, tag', d');
    }
  }

  /** A result changes the state exactly when it finds the flow's own descriptor in flight. */
  lemma ResultActs(env: Env, s: Flow, res: Result)
    ensures TxResult(env, s, res) != s <==> Matches(s, res)
  {
    hide TxResult, Settles;
    if Matches(s, res) {
      StepCounts(env, s, EvResult(res), s.pending.value.attempt);
      assert Step(env, s, EvResult(res)) == TxResult(env, s, res);
    } else {
      NoMatch(env, s, res);
    }
  }

  lemma NoMatch(env: Env, s: Flow, res: Result)
    requires !Matches(s, res)
    ensures TxResult(env, s, res) == s
  {
  }

  /** In every run a result of an accepted attempt is taken for the one in flight exactly when the
      two were accepted under one descriptor; with fresh ids, a wrong one is that of a reply. */
  lemma MistakenExactly(env: Env, config: Config, evs: seq<Event>, res: Result, tag: nat)
    requires SourceLimits(env)
    requires var s := Run(env, Boot(env, config), evs);
             s.inflight && Accepted(s.calls, res.no, tag, res.desc)
    ensures var s := Run(env, Boot(env, config), evs);
            && s.pending.Some?
            && (TxResult(env, s, res) != s <==> s.pending.value.desc == res.desc)
            && (s.pending.value.attempt == res.no ==> TxResult(env, s, res) != s)
            && (FreshIds(s.calls) && TxResult(env, s, res) != s && s.pending.value.attempt != res.no ==>
                  res.desc.kind.Response?)
  {
    hide Run, Good, TxResult, FreshIds;
    var s := Run(env, Boot(env, config), evs);
    var other := UnusedTag(evs);
    BootRunGood(env, config, evs, other, None);
    InFlightAccepted(s, other);
    ResultActs(env, s, res);
    var m := s.pending.value;
    if m.attempt == res.no {
      AttemptNamed(s.calls, s.count, res.no, tag, res.desc, m.tag, m.desc);
    } else if FreshIds(s.calls) && m.desc == res.desc && !res.desc.kind.Response? {
      DescNamesAttempt(s.calls, res.desc, res.no, tag, m.attempt, m.tag);
    }
  }

  lemma InFlightAccepted(s: Flow, other: nat)
    requires Good(s, other, None) && s.inflight
    ensures s.mode && s.pending.Some? && NumberedBelow(s.calls, s.count)
    ensures Accepted(s.calls, s.pending.value.attempt, s.pending.value.tag, s.pending.value.desc)
  {
  }

  /** The stack keeps the id of every reply: message tag, if it is one, is put under ids(tag). */
  ghost predicate KeepsReplyIds(calls: Log<Call>, ids: nat -> nat) {
    match calls
    case Nil => true
    case After(before, last) =>
      KeepsReplyIds(before, ids) && (last.Put? && last.desc.kind.Response? ==> last.desc.id == ids(last.tag))
  }

  lemma {:induction false} AcceptedReply(calls: Log<Call>, ids: nat -> nat, no: nat, tag: nat, d: Desc)
    requires KeepsReplyIds(calls, ids) && Accepted(calls, no, tag, d) && d.kind.Response?
    ensures d.id == ids(tag)
  {
    if calls.last != Put(no, tag, d, true) {
      AcceptedReply(calls.before, ids, no, tag, d);
    }
  }

  /** Exactly when completion is exact.  With fresh ids, and replies that keep theirs, a result of an
      accepted attempt changes the state if and only if it belongs to the attempt in flight, or both
      are replies to one id on one link: results of a retried reply are always confused with those of
      its retry, and never with those of its fallback. */
  lemma CompletionExactly(env: Env, config: Config, evs: seq<Event>, res: Result, tag: nat, ids: nat -> nat)
    requires SourceLimits(env)
    requires var s := Run(env, Boot(env, config), evs);
             FreshIds(s.calls) && KeepsReplyIds(s.calls, ids) && Accepted(s.calls, res.no, tag, res.desc)
    ensures var s := Run(env, Boot(env, config), evs);
            && (TxResult(env, s, res) != s <==>
                  s.inflight && s.pending.Some? &&
                  (s.pending.value.attempt == res.no || Confused(ids, s.pending.value, tag, res.desc)))
            && (s.inflight && s.pending.Some? && s.pending.value.tag == tag && res.desc.kind.Response?
                && s.pending.value.desc.kind.Response? ==>
                  (TxResult(env, s, res) != s <==> s.pending.value.desc.link == res.desc.link))
  {
    hide Run, Good, TxResult, FreshIds, KeepsReplyIds;
    var s := Run(env, Boot(env, config), evs);
    if s.inflight {
      MistakenExactly(env, config, evs, res, tag);
      var other := UnusedTag(evs);
      BootRunGood(env, config, evs, other, None);
      InFlightAccepted(s, other);
      var m := s.pending.value;
      if res.desc.kind.Response? {
        AcceptedReply(s.calls, ids, res.no, tag, res.desc);
      }
      if m.desc.kind.Response? {
        AcceptedReply(s.calls, ids, m.attempt, m.tag, m.desc);
      }
      if m.attempt == res.no {
        AttemptNamed(s.calls, s.count, res.no, tag, res.desc, m.tag, m.desc);
      }
    } else {
      NoMatch(env, s, res);
    }
  }

  /** Both are replies to one id, put on one link. */
  ghost predicate Confused(ids: nat -> nat, m: Msg, tag: nat, d: Desc) {
    m.desc.kind.Response? && d.kind.Response? && ids(m.tag) == ids(tag) && m.desc.link == d.link
  }

  // ---------------------------------------------------------------- settling once

  lemma {:induction false} RunSettlesOnce(env: Env, s: Flow, evs: seq<Event>, no: nat, other: nat)
    requires env.maxLora == 0 && Good(s, other, None) && Sends(evs, other) == 0
    requires Settles(s.notes, no) <= 1
    ensures Settles(Run(env, s, evs).notes, no) <= 1
    decreases |evs|
  {
    hide Step, Settles;
    if evs != [] {
      StepCounts(env, s, evs[0], no);
      StepKeeps(env, s, evs[0], other, None);
      RunSettlesOnce(env, Step(env, s, evs[0]), evs[1..], no, other);
    }
  }

  /** Every attempt settles at most once, whatever the stack reports. */
  lemma SettledAtMostOnce(env: Env, config: Config, evs: seq<Event>, no: nat)
    requires SourceLimits(env)
    ensures Settles(Run(env, Boot(env, config), evs).notes, no) <= 1
  {
    var other := UnusedTag(evs);
    BootGood(env, config, other, None);
    RunSettlesOnce(env, Boot(env, config), evs, no, other);
  }

  // ---------------------------------------------------------------- bounded waiting

  /** A pending message has tried one more link than the timeouts it has survived. */
  ghost predicate Patient(s: Flow, tag: nat) {
    if Holds(s, tag) then
      && Timeouts(s.notes, tag) < s.pending.value.tried.Size()
      && (!s.pending.value.allow ==> Timeouts(s.notes, tag) == 0)
    else Timeouts(s.notes, tag) <= 3
  }

  lemma StepPatient(env: Env, s: Flow, e: Event, tag: nat)
    requires SourceLimits(env) && Shape(s) && Shape(Step(env, s, e)) && Patient(s, tag)
    requires Sent(e, tag) == 1 ==> Timeouts(s.notes, tag) == 0
    ensures Patient(Step(env, s, e), tag)
  {
    hide Step;
    StepCounts(env, s, e, tag);
    var t := Step(env, s, e);
    if Sent(e, tag) == 1 {
      assert Timeouts(t.notes, tag) == 0;
    } else if e.EvTimeout? && Fires(s) && Holds(s, tag) {
      TimeoutProgress(env, s);
    }
  }

  lemma {:induction false} RunPatient(env: Env, s: Flow, evs: seq<Event>, tag: nat, other: nat)
    requires SourceLimits(env) && Good(s, other, None) && Sends(evs, other) == 0
    requires Patient(s, tag) && Sends(evs, tag) <= 1
    requires Sends(evs, tag) == 1 ==> Timeouts(s.notes, tag) == 0 && Copies(s, tag) == 0
    ensures Patient(Run(env, s, evs), tag)
    decreases |evs|
  {
    hide Step, Patient, Timeouts, Frees;
    if evs != [] {
      StepKeeps(env, s, evs[0], other, None);
      StepPatient(env, s, evs[0], tag);
      StepCounts(env, s, evs[0], tag);
      RunPatient(env, Step(env, s, evs[0]), evs[1..], tag, other);
    }
  }

  /** A pending message has survived at most two timeouts, and none if it is strict; over its
      whole life at most three expire. */
  lemma BoundedTimeouts(env: Env, config: Config, evs: seq<Event>, tag: nat)
    requires SourceLimits(env) && Sends(evs, tag) <= 1
    ensures var t := Run(env, Boot(env, config), evs);
            && Timeouts(t.notes, tag) <= 3
            && (Holds(t, tag) ==> Timeouts(t.notes, tag) <= if t.pending.value.allow then 2 else 0)
  {
    var other := UnusedTag(evs);
    BootGood(env, config, other, None);
    RunPatient(env, Boot(env, config), evs, tag, other);
  }
}

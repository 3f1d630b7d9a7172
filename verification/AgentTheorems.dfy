/** What holds of every run of the user agent. */
module AgentTheorems {
  import opened Prelude
  import opened AgentTypes
  import opened AgentSpec
  import opened AgentStory
  import opened AgentLinks
  import opened AgentTimers
  import opened AgentAnswers
  import opened AgentMedia
  import opened AgentRequests
  import opened AgentQuiescence
  import opened AgentRuns
  import opened AgentOrigins

  // ---- The event stream ----

  /** The events of one call. */
  function EventsOf(es: seq<Event>, id: int): seq<Event> {
    if es == [] then []
    else EventsOf(es[..|es| - 1], id) + (if es[|es| - 1].callId == id then [es[|es| - 1]] else [])
  }

  lemma {:induction false} EventsOfConcat(xs: seq<Event>, ys: seq<Event>, id: int)
    ensures EventsOf(xs + ys, id) == EventsOf(xs, id) + EventsOf(ys, id)
    decreases |ys|
  {
    if ys == [] {
      assert xs + ys == xs;
    } else {
      EventsOfConcat(xs, ys[..|ys| - 1], id);
      assert (xs + ys)[..|xs + ys| - 1] == xs + ys[..|ys| - 1];
    }
  }

  lemma {:induction false} EventsOfAll(es: seq<Event>, owner: int, id: int)
    requires forall i :: 0 <= i < |es| ==> es[i].callId == owner
    ensures EventsOf(es, id) == if id == owner then es else []
    decreases |es|
  {
    if es != [] {
      EventsOfAll(es[..|es| - 1], owner, id);
    }
  }

  function EndedCount(es: seq<Event>): nat {
    if es == [] then 0 else EndedCount(es[..|es| - 1]) + (if es[|es| - 1].kind == Ended then 1 else 0)
  }

  lemma {:induction false} EndedConcat(xs: seq<Event>, ys: seq<Event>)
    ensures EndedCount(xs + ys) == EndedCount(xs) + EndedCount(ys)
    decreases |ys|
  {
    if ys == [] {
      assert xs + ys == xs;
    } else {
      EndedConcat(xs, ys[..|ys| - 1]);
      assert (xs + ys)[..|xs + ys| - 1] == xs + ys[..|ys| - 1];
    }
  }

  lemma {:induction false} NoneEnded(es: seq<Event>)
    requires forall i :: 0 <= i < |es| ==> es[i].kind != Ended
    ensures EndedCount(es) == 0
    decreases |es|
  {
    if es != [] {
      NoneEnded(es[..|es| - 1]);
    }
  }

  /** A chapter ends at most once, and exactly once when it is over. */
  lemma ChapterEnds(b: Born, es: seq<Event>, stage: Stage)
    requires Chapter(b, es, stage)
    ensures EndedCount(es) == if stage == Over then 1 else 0
  {
    if stage == Over {
      NoneEnded(es[..|es| - 1]);
    } else {
      NoneEnded(es);
    }
  }

  lemma SplitEnds(es: seq<Event>, k: nat, last: Born, stage: Stage)
    requires k <= |es| && Chapter(last, es[k..], stage)
    ensures EndedCount(es) == EndedCount(es[..k]) + if stage == Over then 1 else 0
  {
    ChapterEnds(last, es[k..], stage);
    EndedConcat(es[..k], es[k..]);
    assert es[..k] + es[k..] == es;
  }

  lemma {:induction false} StoryEnds(born: seq<Born>, es: seq<Event>, stage: Stage)
    requires Story(born, es, stage)
    ensures |born| - EndedCount(es) == if stage == Over then 0 else 1
    decreases |born|
  {
    if born != [] {
      var k :| 0 <= k <= |es| && Story(born[..|born| - 1], es[..k], Over) && Chapter(born[|born| - 1], es[k..], stage);
      SplitEnds(es, k, born[|born| - 1], stage);
      StoryEnds(born[..|born| - 1], es[..k], Over);
    }
  }

  /** The events of one identifier in a story whose last chapter starts at k. */
  lemma LastChapter(es: seq<Event>, k: nat, last: Born, stage: Stage, id: int)
    requires k <= |es| && Chapter(last, es[k..], stage)
    ensures EventsOf(es, id) == EventsOf(es[..k], id) + if id == last.id then es[k..] else []
  {
    EventsOfAll(es[k..], last.id, id);
    EventsOfConcat(es[..k], es[k..], id);
    assert es[..k] + es[k..] == es;
  }

  lemma {:induction false} StoryOfOthers(born: seq<Born>, es: seq<Event>, stage: Stage, id: int)
    requires Story(born, es, stage) && !IdIn(born, id)
    ensures EventsOf(es, id) == []
    decreases |born|
  {
    if born != [] {
      var front, last := born[..|born| - 1], born[|born| - 1];
      var k :| 0 <= k <= |es| && Story(front, es[..k], Over) && Chapter(last, es[k..], stage);
      LastChapter(es, k, last, stage, id);
      assert !IdIn(front, id) by {
        if IdIn(front, id) { BornStays(front, born, id); }
      }
      StoryOfOthers(front, es[..k], Over, id);
    }
  }

  lemma StoryCut(born: seq<Born>, es: seq<Event>, stage: Stage) returns (k: nat)
    requires Story(born, es, stage) && born != []
    ensures k <= |es| && Story(born[..|born| - 1], es[..k], Over) && Chapter(born[|born| - 1], es[k..], stage)
  {
    k :| 0 <= k <= |es| && Story(born[..|born| - 1], es[..k], Over) && Chapter(born[|born| - 1], es[k..], stage);
  }

  lemma LastIsNew(born: seq<Born>)
    requires Distinct(born) && born != []
    ensures Distinct(born[..|born| - 1]) && !IdIn(born[..|born| - 1], born[|born| - 1].id)
  {
  }

  /** In a story each call's events are its own chapter. */
  lemma {:induction false} StoryPerCall(born: seq<Born>, es: seq<Event>, stage: Stage, i: nat)
    requires Story(born, es, stage) && Distinct(born) && i < |born|
    ensures Spells(born[i].outgoing, EventsOf(es, born[i].id), if i == |born| - 1 then stage else Over)
    decreases |born|
  {
    var front, last := born[..|born| - 1], born[|born| - 1];
    var k := StoryCut(born, es, stage);
    LastChapter(es, k, last, stage, born[i].id);
    LastIsNew(born);
    if i < |born| - 1 {
      assert front[i] == born[i];
      StoryPerCall(front, es[..k], Over, i);
      assert born[i].id != last.id;
      assert EventsOf(es, born[i].id) == EventsOf(es[..k], born[i].id);
    } else {
      StoryOfOthers(front, es[..k], Over, last.id);
      assert EventsOf(es, last.id) == es[k..];
    }
  }

  /**
   * In every run the events of each call spell `[Incoming] Progress* [Answered] Ended` or a prefix of it, calls follow
   * one another without overlap, and the calls created but not ended number one if there is a call and none otherwise.
   */
  lemma EventsTellCalls(cfg: Config, inputs: seq<Input>, id: int)
    requires AllowedRun(Init(cfg), inputs)
    ensures var a := Run(Init(cfg), inputs);
            var es := CallEvents(a.log);
            && Story(a.born, es, StageOf(a.call))
            && |a.born| - EndedCount(es) == (if a.call.Some? then 1 else 0)
            && (!IdIn(a.born, id) ==> EventsOf(es, id) == [])
            && (forall i :: 0 <= i < |a.born| && a.born[i].id == id ==>
                  Spells(a.born[i].outgoing, EventsOf(es, id), if i == |a.born| - 1 then StageOf(a.call) else Over))
  {
    ReachableInv(cfg, inputs);
    var a := Run(Init(cfg), inputs);
    StoryEnds(a.born, CallEvents(a.log), StageOf(a.call));
    if !IdIn(a.born, id) {
      StoryOfOthers(a.born, CallEvents(a.log), StageOf(a.call), id);
    }
    forall i | 0 <= i < |a.born| && a.born[i].id == id
      ensures Spells(a.born[i].outgoing, EventsOf(CallEvents(a.log), id),
                     if i == |a.born| - 1 then StageOf(a.call) else Over)
    {
      StoryPerCall(a.born, CallEvents(a.log), StageOf(a.call), i);
    }
  }

  // ---- No half-open dialog ----

  /** In every run an outgoing call is dialling exactly while its latest INVITE is live. */
  lemma DiallingIsLive(cfg: Config, inputs: seq<Input>)
    requires AllowedRun(Init(cfg), inputs)
    ensures var a := Run(Init(cfg), inputs);
            a.call.Some? && a.call.value.outgoing ==>
              var key := Key(a.call.value.inviteBranch, INVITE);
              a.call.value.state == Calling <==> key in a.txs && InviteOf(a.txs, key, a.call.value.id)
  {
    ReachableInv(cfg, inputs);
  }

  /** The call of the dialog is up: confirmed, its media started, and reported as answered, all in this step. */
  ghost predicate Established(a: Agent, b: Agent, context: InviteContext) {
    && b.call.Some? && b.call.value.id == context.callId && b.call.value.state == Confirmed
    && |b.media| == |a.media| + 1 && b.media[..|a.media|] == a.media
    && b.media[|a.media|].Started? && b.media[|a.media|].owner == context.callId && b.media[|a.media|].ok
    && |b.log| == |a.log| + 1 && b.log[..|a.log|] == a.log
    && b.log[|a.log|].kind == Answered && b.log[|a.log|].callId == context.callId
  }

  /** A BYE for the dialog went out in this step, and its call is not the agent's call. */
  ghost predicate SentAway(a: Agent, b: Agent, context: InviteContext, r: Response) {
    && (b.call.Some? ==> b.call.value.id != context.callId)
    && |b.wire| == |a.wire| + 2 && IsFirst(b.wire[|a.wire| + 1], context.callId, BYE)
    && b.wire[|a.wire| + 1].request.to == Header(r.to) && b.wire[|a.wire| + 1].request.callId == context.sipCallId
    && b.wire[|a.wire| + 1].request.uri == TargetOf(context, r) && b.wire[|a.wire| + 1].request.cseq > context.cseq
  }

  lemma ByeAndEndOutcome(a: Agent, reason: EndReason, status: int, now: int)
    requires a.call.Some?
    ensures var b := EndCall(SendBye(a, now), reason, status);
            b.call.None? && b.wire == a.wire + [Created(Key(a.names, BYE), ByeRequest(a.call.value))]
  {
  }

  lemma EstablishOutcome(a: Agent, r: Response, host: Host, now: int)
    requires a.call.Some? && a.call.value.state == Confirmed
    ensures var b, c := Establish(a, r, host, now), a.call.value;
            || (b.call == a.call && b.wire == a.wire && host.startOk && UsableAnswer(a.cfg, r.answer)
                && b.media == a.media + [StartByAnswer(a.cfg, c, r.answer.value, true)]
                && b.log == a.log + [Event(Answered, c.id, r.status, NoReason)])
            || (b.call.None? && b.wire == a.wire + [Created(Key(a.names, BYE), ByeRequest(c))])
  {
    var c := a.call.value;
    if c.cancelRequested {
      ByeAndEndOutcome(a, OwnReason(a), 0, now);
    } else if !UsableAnswer(a.cfg, r.answer) {
      ByeAndEndOutcome(a, MediaFailed, 488, now);
    } else {
      var b := Do(a, StartByAnswer(a.cfg, c, r.answer.value, host.startOk));
      ByeAndEndOutcome(b, MediaFailed, 488, now);
    }
  }

  /**
   * Every 2xx to a live INVITE is acknowledged in the step that consumes it, and leaves either that call up or a BYE
   * sent for that dialog and no such call, even if the call was given up before (section 13.2.2.4 of RFC 3261).
   */
  lemma SuccessIsSettled(a: Agent, key: Key, r: Response, host: Host, now: int)
    requires Inv(a) && key in a.txs && a.txs[key].handler.InviteFinal? && IsSuccess(r.status)
    ensures var context, b := a.txs[key].handler.context, Finish(a, key, Some(r), host, now);
            && a.wire < b.wire && b.wire[|a.wire|] == Acked(AckFor(context, r, a.names), context.callId)
            && (Established(a, b, context) || SentAway(a, b, context, r))
  {
    var context, d := a.txs[key].handler.context, a.(txs := a.txs - {key});
    OursIsDialling(a, key);
    if Ours(d, context) {
      OursSettled(a, d, context, r, host, now);
    } else {
      LateSettled(a, d, context, r, host, now);
    }
  }

  lemma OursSettled(a: Agent, d: Agent, context: InviteContext, r: Response, host: Host, now: int)
    requires d == a.(txs := d.txs)
    requires Ours(d, context) && context == InviteContextOf(d.call.value) && context.cseq < d.call.value.localCseq
    ensures var b := OnInviteSuccess(d, context, r, host, now);
            && a.wire < b.wire && b.wire[|a.wire|] == Acked(AckFor(context, r, a.names), context.callId)
            && (Established(a, b, context) || SentAway(a, b, context, r))
  {
    var ack := AckFor(context, r, a.names);
    var e := SetCall(Say(d.(names := d.names + 1), Acked(ack, context.callId)), Confirm(d.call.value, context, r, ack));
    assert OnInviteSuccess(d, context, r, host, now) == Establish(e, r, host, now);
    EstablishOutcome(e, r, host, now);
    SettledBy(a, e, Establish(e, r, host, now), context, r);
  }

  lemma SettledBy(a: Agent, e: Agent, b: Agent, context: InviteContext, r: Response)
    requires e.wire == a.wire + [Acked(AckFor(context, r, a.names), context.callId)] && e.media == a.media
             && e.log == a.log
    requires e.call.Some? && e.call.value.id == context.callId && e.call.value.state == Confirmed
    requires e.call.value.remoteHeader == Header(r.to) && e.call.value.remoteTarget == TargetOf(context, r)
    requires e.call.value.sipCallId == context.sipCallId && context.cseq < e.call.value.localCseq
    requires || (b.call == e.call && b.wire == e.wire
                 && (exists m: MediaAct ::
                       m.Started? && m.owner == context.callId && m.ok && b.media == e.media + [m])
                 && b.log == e.log + [Event(Answered, e.call.value.id, r.status, NoReason)])
             || (b.call.None? && b.wire == e.wire + [Created(Key(e.names, BYE), ByeRequest(e.call.value))])
    ensures a.wire < b.wire && b.wire[|a.wire|] == Acked(AckFor(context, r, a.names), context.callId)
    ensures Established(a, b, context) || SentAway(a, b, context, r)
  {
  }

  lemma LateSettled(a: Agent, d: Agent, context: InviteContext, r: Response, host: Host, now: int)
    requires d == a.(txs := d.txs) && !Ours(d, context)
    requires d.call.Some? ==> d.call.value.id != context.callId
    ensures var b := OnInviteSuccess(d, context, r, host, now);
            && a.wire < b.wire && b.wire[|a.wire|] == Acked(AckFor(context, r, a.names), context.callId)
            && SentAway(a, b, context, r)
  {
  }

  // ---- Retransmission ----

  /**
   * In every run, however late the ticks, an INVITE goes out at most 7 times and any other request at most 11 times,
   * exactly once over a reliable transport, and the 200 to a call at most 11 times besides copies for repeated INVITEs.
   */
  lemma CopiesAreBounded(cfg: Config, inputs: seq<Input>, key: Key, id: int)
    requires AllowedRun(Init(cfg), inputs)
    ensures var a := Run(Init(cfg), inputs);
            && Copies(a.wire, key) <= (if key.verb == INVITE then 7 else 11)
            && (cfg.reliable ==> Copies(a.wire, key) <= 1)
            && (key in a.txs ==> Copies(a.wire, key) >= 1)
            && AnswerCopies(a.wire, id) <= 11
  {
    ReachableInv(cfg, inputs);
    var a := Run(Init(cfg), inputs);
    RunCfg(Init(cfg), inputs);
    assert Bounded(a.cfg.reliable, key, Copies(a.wire, key));
    assert key in a.txs ==> TimedTx(a.cfg.reliable, key, a.txs[key], Copies(a.wire, key));
  }

  /** The configuration never changes. */
  lemma {:induction false} RunCfg(a: Agent, inputs: seq<Input>)
    requires AllowedRun(a, inputs)
    ensures Run(a, inputs).cfg == a.cfg
    decreases |inputs|
  {
    if inputs != [] {
      StepBorn(a, inputs[0]);
      RunCfg(Step(a, inputs[0]), inputs[1..]);
    }
  }

  // ---- Media ----

  /**
   * In every run the media socket is open exactly while the current call has it open, media is started only while open
   * and only by the call that opened it, every answered call had its media started, and there is one key per call: each
   * start and each session description of the call carries it, 30 bytes long, with SRTP, and none carries keys without.
   * The far end's key is the one that the description it sent holds under the tag that this side's answer names or, in
   * an answer to this side's INVITE, under the tag of offers; an INVITE carries the tag of the call's description
   * before it.
   */
  lemma MediaIsSafe(cfg: Config, inputs: seq<Input>) returns (keys: Keys)
    requires AllowedRun(Init(cfg), inputs)
    ensures var a := Run(Init(cfg), inputs);
            && OpenCount(a.media) == (if a.call.Some? && a.call.value.mediaOpen then 1 else 0)
            && Holder(a.media) == (if a.call.Some? && a.call.value.mediaOpen then Some(a.call.value.id) else None)
            && (forall i :: 0 <= i < |a.media| && a.media[i].Started? ==>
                Holder(a.media[..i]) == Some(a.media[i].owner))
            && (forall i :: 0 <= i < |a.log| && a.log[i].kind == Answered ==> StartedFor(a.media, a.log[i].callId))
            && (forall i :: 0 <= i < |a.media| ==> ActOk(cfg, keys, a.media[i]))
            && (forall i :: 0 <= i < |a.wire| ==> WireOk(cfg, keys, a.wire[i]))
            && (forall id :: id in keys ==> |keys[id]| == KEY_LENGTH)
            && (forall k :: 0 <= k < |a.media| && a.media[k].Started? ==>
                Received(inputs, a.media[k]) && Sent(a.wire, a.media[k]))
            && TagsFollow(a.wire)
  {
    ReachableInv(cfg, inputs);
    RunCfg(Init(cfg), inputs);
    RunExplained(cfg, inputs);
    var a := Run(Init(cfg), inputs);
    keys :| Secured(a, keys);
    OpenCountIsHolder(a.media);
    forall i | 0 <= i < |a.media| && a.media[i].Started? ensures Holder(a.media[..i]) == Some(a.media[i].owner) {
      assert Fits(Holder(a.media[..i]), a.media[i]);
    }
  }

  // ---- Requests of a call ----

  /**
   * In every run a call creates at most two INVITEs, one CANCEL and one BYE; a CANCEL follows a hangup and a
   * provisional response to the INVITE whose branch and CSeq it shares; the CSeq of INVITE and BYE strictly rises, the
   * BYE sent after the call is gone included.
   */
  lemma RequestsAreFew(cfg: Config, inputs: seq<Input>, id: int)
    requires AllowedRun(Init(cfg), inputs)
    ensures var wire := Run(Init(cfg), inputs).wire;
            && Made(wire, id, INVITE) <= 2 && Made(wire, id, CANCEL) <= 1 && Made(wire, id, BYE) <= 1
            && CancelsJustified(wire) && Rising(wire)
  {
    ReachableInv(cfg, inputs);
    assert Few(Run(Init(cfg), inputs).wire, id);
  }

  // ---- After shutdown ----

  /** How many of the inputs are ticks at which every live transaction is due, or lost connections. */
  ghost function Sweeps(a: Agent, inputs: seq<Input>): nat
    decreases |inputs|
  {
    if inputs == [] then 0
    else (if Sweeping(a, inputs[0]) then 1 else 0) + Sweeps(Step(a, inputs[0]), inputs[1..])
  }

  lemma {:induction false} QuietRun(a: Agent, inputs: seq<Input>)
    requires Inv(a) && a.shutting && AllowedRun(a, inputs) && forall i :: 0 <= i < |inputs| ==> Passive(inputs[i])
    ensures var b := Run(a, inputs);
            && Quitting(b) && Pays(a, b)
            && (b.txs == map[] || Total(b.txs) + Sweeps(a, inputs) <= Total(a.txs))
            && (a.txs == map[] ==> b.txs == map[])
    decreases |inputs|
  {
    if inputs != [] {
      var i, rest, s := inputs[0], inputs[1..], Step(a, inputs[0]);
      StepInv(a, i);
      StepPays(a, i);
      if Sweeping(a, i) {
        SweepDrops(a, i);
      }
      NonEmptyTotal(s.txs);
      QuietRun(s, rest);
    }
  }

  lemma NonEmptyTotal(txs: map<Key, Transaction>)
    ensures txs != map[] ==> Total(txs) > 0
  {
    if txs != map[] {
      var k :| k in txs;
      TotalRemove(txs, k);
    }
  }

  /**
   * After shutdown, as long as it is not asked to stop again, the agent has no call and is not registered, creates no
   * more requests than the ranks of its live transactions add up to, and is idle once that many sweeps have passed.
   */
  lemma ShutdownRunsDry(cfg: Config, before: seq<Input>, now: int, after: seq<Input>)
    requires AllowedRun(Init(cfg), before)
    requires AllowedRun(BeginShutdown(Run(Init(cfg), before), now), after)
    requires forall i :: 0 <= i < |after| ==> Passive(after[i])
    ensures var a := BeginShutdown(Run(Init(cfg), before), now);
            var b := Run(a, after);
            && b.call.None? && !b.reg.registered
            && Requests(b.wire) - Requests(a.wire) <= Total(a.txs)
            && (Sweeps(a, after) >= Total(a.txs) ==> b.txs == map[])
  {
    ReachableInv(cfg, before);
    var a := BeginShutdown(Run(Init(cfg), before), now);
    StepInv(Run(Init(cfg), before), Quit(now));
    ShutdownQuits(Run(Init(cfg), before), now);
    QuietRun(a, after);
    NonEmptyTotal(Run(a, after).txs);
  }
}

/** Which requests a call creates, over whole runs. */
module AgentRequests {
  import opened Prelude
  import opened AgentTypes
  import opened AgentSpec
  import opened AgentLinks
  import opened AgentTimers

  /** Whether w is the first copy of a request of the given kind for call id. */
  predicate IsFirst(w: Wire, id: int, verb: Method) {
    w.Created? && w.request.owner == Some(id) && w.request.verb == verb
  }

  /** How many requests of a kind have been created for a call. */
  function Made(wire: seq<Wire>, id: int, verb: Method): nat {
    if wire == [] then 0
    else Made(wire[..|wire| - 1], id, verb) + (if IsFirst(wire[|wire| - 1], id, verb) then 1 else 0)
  }

  lemma MadeAppend(wire: seq<Wire>, w: Wire, id: int, verb: Method)
    ensures Made(wire + [w], id, verb) == Made(wire, id, verb) + (if IsFirst(w, id, verb) then 1 else 0)
  {
    assert (wire + [w])[..|wire|] == wire;
  }

  /** An INVITE or BYE of the call: the requests whose CSeq must rise. */
  predicate Numbered(w: Wire, id: int) {
    IsFirst(w, id, INVITE) || IsFirst(w, id, BYE)
  }

  ghost predicate Below(wire: seq<Wire>, id: int, n: nat) {
    forall i :: 0 <= i < |wire| && Numbered(wire[i], id) ==> wire[i].request.cseq < n
  }

  /** Within each call the CSeq of INVITE and BYE strictly rises. */
  ghost predicate Rising(wire: seq<Wire>) {
    forall i, j, id :: 0 <= i < j < |wire| && Numbered(wire[i], id) && Numbered(wire[j], id) ==>
                         wire[i].request.cseq < wire[j].request.cseq
  }

  ghost predicate InvitedBy(wire: seq<Wire>, n: nat, id: int, branch: Name, cseq: nat) {
    exists j :: 0 <= j < n && j < |wire| && IsFirst(wire[j], id, INVITE) && wire[j].key == Key(branch, INVITE)
                && wire[j].request.cseq == cseq
  }

  ghost predicate HeardBy(wire: seq<Wire>, n: nat, key: Key) {
    exists j :: 0 <= j < n && j < |wire| && wire[j] == Heard(key)
  }

  ghost predicate AskedBy(wire: seq<Wire>, n: nat, id: int) {
    exists j :: 0 <= j < n && j < |wire| && wire[j] == HangupAsked(id)
  }

  /**
   * A CANCEL follows its INVITE on the same branch with the same CSeq, a provisional response to that very INVITE, and
   * the wish to hang up (section 9.1 of RFC 3261).
   */
  ghost predicate CancelJustified(wire: seq<Wire>, i: nat)
    requires i < |wire|
  {
    wire[i].Created? && wire[i].request.verb == CANCEL ==>
      && wire[i].request.owner.Some?
      && InvitedBy(wire, i, wire[i].request.owner.value, wire[i].key.branch, wire[i].request.cseq)
      && HeardBy(wire, i, Key(wire[i].key.branch, INVITE))
      && AskedBy(wire, i, wire[i].request.owner.value)
  }

  ghost predicate CancelsJustified(wire: seq<Wire>) {
    forall i :: 0 <= i < |wire| ==> CancelJustified(wire, i)
  }

  ghost predicate Few(wire: seq<Wire>, id: int) {
    Made(wire, id, INVITE) <= 2 && Made(wire, id, CANCEL) <= 1 && Made(wire, id, BYE) <= 1
  }

  ghost predicate Nothing(wire: seq<Wire>, id: int) {
    Made(wire, id, INVITE) == 0 && Made(wire, id, CANCEL) == 0 && Made(wire, id, BYE) == 0 && Below(wire, id, 0)
  }

  ghost predicate CountsOk(wire: seq<Wire>, born: seq<Born>) {
    forall id :: Few(wire, id) && (!IdIn(born, id) ==> Nothing(wire, id))
  }

  /** A live INVITE whose dialog may still need a BYE. */
  ghost predicate LiveOk(txs: map<Key, Transaction>, wire: seq<Wire>) {
    forall k :: k in txs && txs[k].handler.InviteFinal? ==>
      Made(wire, txs[k].handler.context.callId, BYE) == 0
      && Below(wire, txs[k].handler.context.callId, txs[k].handler.context.cseq + 1)
  }

  ghost predicate CallRequests(c: Call, wire: seq<Wire>) {
    && Made(wire, c.id, BYE) == 0 && Below(wire, c.id, c.localCseq)
    && (if c.outgoing then
          && Made(wire, c.id, INVITE) == (if c.authenticated then 2 else 1)
          && Made(wire, c.id, CANCEL) == (if c.cancelSent then 1 else 0)
          && InvitedBy(wire, |wire|, c.id, c.inviteBranch, c.inviteCseq)
          && (c.provisional ==> HeardBy(wire, |wire|, Key(c.inviteBranch, INVITE)))
          && (c.cancelRequested ==> AskedBy(wire, |wire|, c.id))
          && (c.cancelSent ==> c.cancelRequested)
        else Made(wire, c.id, INVITE) == 0 && Made(wire, c.id, CANCEL) == 0)
  }

  ghost predicate History(wire: seq<Wire>, born: seq<Born>) {
    CountsOk(wire, born) && Rising(wire) && CancelsJustified(wire)
  }

  ghost predicate Requested(a: Agent) {
    && History(a.wire, a.born) && LiveOk(a.txs, a.wire)
    && (a.call.Some? ==> CallRequests(a.call.value, a.wire) && IdIn(a.born, a.call.value.id))
  }

  // ---- Traffic that creates no request of a call ----

  ghost predicate Unowned(wire: seq<Wire>, wire': seq<Wire>) {
    wire <= wire' && forall i :: |wire| <= i < |wire'| ==>
        !(wire'[i].Created? && (wire'[i].request.owner.Some? || wire'[i].request.verb == CANCEL))
  }

  lemma {:induction false} UnownedMade(wire: seq<Wire>, wire': seq<Wire>, id: int, verb: Method)
    requires Unowned(wire, wire')
    ensures Made(wire', id, verb) == Made(wire, id, verb)
    decreases |wire'|
  {
    if |wire| < |wire'| {
      UnownedMade(wire, wire'[..|wire'| - 1], id, verb);
    } else {
      assert wire' == wire;
    }
  }

  lemma UnownedBelow(wire: seq<Wire>, wire': seq<Wire>, id: int, n: nat)
    requires Unowned(wire, wire') && Below(wire, id, n)
    ensures Below(wire', id, n)
  {
    forall i | 0 <= i < |wire'| && Numbered(wire'[i], id) ensures wire'[i].request.cseq < n {
      assert i < |wire| && wire[i] == wire'[i];
    }
  }

  /** Earlier facts stay facts. */
  lemma FactsStay(wire: seq<Wire>, wire': seq<Wire>, n: nat, n': nat)
    requires wire <= wire' && n <= n'
    ensures forall id, branch, cseq :: InvitedBy(wire, n, id, branch, cseq) ==> InvitedBy(wire', n', id, branch, cseq)
    ensures forall key :: HeardBy(wire, n, key) ==> HeardBy(wire', n', key)
    ensures forall id :: AskedBy(wire, n, id) ==> AskedBy(wire', n', id)
  {
    forall id, branch, cseq | InvitedBy(wire, n, id, branch, cseq) ensures InvitedBy(wire', n', id, branch, cseq) {
      var j :| 0 <= j < n && j < |wire| && IsFirst(wire[j], id, INVITE) && wire[j].key == Key(branch, INVITE)
               && wire[j].request.cseq == cseq;
      assert wire'[j] == wire[j];
    }
    forall key | HeardBy(wire, n, key) ensures HeardBy(wire', n', key) {
      var j :| 0 <= j < n && j < |wire| && wire[j] == Heard(key);
      assert wire'[j] == wire[j];
    }
    forall id | AskedBy(wire, n, id) ensures AskedBy(wire', n', id) {
      var j :| 0 <= j < n && j < |wire| && wire[j] == HangupAsked(id);
      assert wire'[j] == wire[j];
    }
  }

  lemma UnownedCancels(wire: seq<Wire>, wire': seq<Wire>)
    requires Unowned(wire, wire') && CancelsJustified(wire)
    ensures CancelsJustified(wire')
  {
    forall i | 0 <= i < |wire'| ensures CancelJustified(wire', i) {
      if i < |wire| {
        assert wire[i] == wire'[i] && CancelJustified(wire, i);
        FactsStay(wire, wire', i, i);
      }
    }
  }

  lemma UnownedRising(wire: seq<Wire>, wire': seq<Wire>)
    requires Unowned(wire, wire') && Rising(wire)
    ensures Rising(wire')
  {
    forall i, j, id | 0 <= i < j < |wire'| && Numbered(wire'[i], id) && Numbered(wire'[j], id)
      ensures wire'[i].request.cseq < wire'[j].request.cseq
    {
      assert j < |wire| && wire[i] == wire'[i] && wire[j] == wire'[j];
    }
  }

  lemma UnownedHistory(wire: seq<Wire>, wire': seq<Wire>, born: seq<Born>, born': seq<Born>)
    requires Unowned(wire, wire') && History(wire, born) && born <= born'
    ensures History(wire', born')
  {
    UnownedCancels(wire, wire');
    UnownedRising(wire, wire');
    forall id ensures Few(wire', id) && (!IdIn(born', id) ==> Nothing(wire', id)) {
      UnownedMade(wire, wire', id, INVITE);
      UnownedMade(wire, wire', id, CANCEL);
      UnownedMade(wire, wire', id, BYE);
      assert Few(wire, id) && (!IdIn(born, id) ==> Nothing(wire, id));
      if IdIn(born, id) {
        BornStays(born, born', id);
      } else {
        UnownedBelow(wire, wire', id, 0);
      }
    }
  }

  /** No new INVITE transaction. */
  ghost predicate FewerInvites(txs: map<Key, Transaction>, txs': map<Key, Transaction>) {
    forall k :: k in txs' && txs'[k].handler.InviteFinal? ==> k in txs && txs[k].handler == txs'[k].handler
  }

  lemma UnownedLive(txs: map<Key, Transaction>, txs': map<Key, Transaction>, wire: seq<Wire>, wire': seq<Wire>)
    requires Unowned(wire, wire') && FewerInvites(txs, txs') && LiveOk(txs, wire)
    ensures LiveOk(txs', wire')
  {
    forall k | k in txs' && txs'[k].handler.InviteFinal?
      ensures Made(wire', txs'[k].handler.context.callId, BYE) == 0
              && Below(wire', txs'[k].handler.context.callId, txs'[k].handler.context.cseq + 1)
    {
      var id := txs'[k].handler.context.callId;
      UnownedMade(wire, wire', id, BYE);
      UnownedBelow(wire, wire', id, txs'[k].handler.context.cseq + 1);
    }
  }

  lemma UnownedCall(c: Call, c': Call, wire: seq<Wire>, wire': seq<Wire>)
    requires Unowned(wire, wire') && CallRequests(c, wire)
    requires c'.id == c.id && c'.outgoing == c.outgoing && c'.localCseq == c.localCseq
             && c'.authenticated == c.authenticated
    requires c'.cancelSent == c.cancelSent && c'.inviteBranch == c.inviteBranch && c'.inviteCseq == c.inviteCseq
    requires c'.outgoing && c'.provisional ==> HeardBy(wire', |wire'|, Key(c'.inviteBranch, INVITE))
    requires c'.outgoing && c'.cancelRequested ==> AskedBy(wire', |wire'|, c'.id)
    requires c.cancelRequested ==> c'.cancelRequested
    ensures CallRequests(c', wire')
  {
    UnownedMade(wire, wire', c.id, INVITE);
    UnownedMade(wire, wire', c.id, CANCEL);
    UnownedMade(wire, wire', c.id, BYE);
    UnownedBelow(wire, wire', c.id, c.localCseq);
    FactsStay(wire, wire', |wire|, |wire'|);
  }

  /** The call, if it is still there, has the same record of requests. */
  predicate SameRecord(a: Option<Call>, b: Option<Call>) {
    b.Some? ==>
      && a.Some? && b.value.id == a.value.id && b.value.outgoing == a.value.outgoing
      && b.value.localCseq == a.value.localCseq && b.value.authenticated == a.value.authenticated
      && b.value.cancelSent == a.value.cancelSent && b.value.inviteBranch == a.value.inviteBranch
      && b.value.inviteCseq == a.value.inviteCseq && b.value.provisional == a.value.provisional
      && b.value.cancelRequested == a.value.cancelRequested
  }

  /** Steps that create nothing for a call and leave the call's own record alone. */
  ghost predicate Idle(a: Agent, b: Agent) {
    && Unowned(a.wire, b.wire) && FewerInvites(a.txs, b.txs) && b.born == a.born && SameRecord(a.call, b.call)
  }

  lemma RespondingIsIdle(a: Agent, b: Agent)
    requires OnlyResponds(a, b) && b.born == a.born && SameRecord(a.call, b.call)
    ensures Idle(a, b)
  {
  }

  lemma IdleKeeps(a: Agent, b: Agent)
    requires Requested(a) && Idle(a, b)
    ensures Requested(b)
  {
    UnownedHistory(a.wire, b.wire, a.born, b.born);
    UnownedLive(a.txs, b.txs, a.wire, b.wire);
    if b.call.Some? {
      FactsStay(a.wire, b.wire, |a.wire|, |b.wire|);
      UnownedCall(a.call.value, b.call.value, a.wire, b.wire);
    }
  }

  // ---- Creating a request ----

  lemma MadeHistory(wire: seq<Wire>, born: seq<Born>, w: Wire, id: int)
    requires History(wire, born) && w.Created? && w.request.owner == Some(id) && IdIn(born, id)
    requires w.request.verb == INVITE ==> Made(wire, id, INVITE) <= 1
    requires w.request.verb == BYE ==> Made(wire, id, BYE) == 0
    requires w.request.verb == CANCEL ==> Made(wire, id, CANCEL) == 0 && CancelJustified(wire + [w], |wire|)
    requires Numbered(w, id) ==> Below(wire, id, w.request.cseq)
    ensures History(wire + [w], born)
  {
    var wire' := wire + [w];
    forall other ensures Few(wire', other) && (!IdIn(born, other) ==> Nothing(wire', other)) {
      MadeAppend(wire, w, other, INVITE);
      MadeAppend(wire, w, other, CANCEL);
      MadeAppend(wire, w, other, BYE);
      assert Few(wire, other) && (!IdIn(born, other) ==> Nothing(wire, other));
    }
    forall i | 0 <= i < |wire'| ensures CancelJustified(wire', i) {
      if i < |wire| {
        assert wire[i] == wire'[i] && CancelJustified(wire, i);
        FactsStay(wire, wire', i, i);
      }
    }
    forall i, j, x | 0 <= i < j < |wire'| && Numbered(wire'[i], x) && Numbered(wire'[j], x)
      ensures wire'[i].request.cseq < wire'[j].request.cseq
    {
      assert wire[i] == wire'[i];
      if j < |wire| {
        assert wire[j] == wire'[j];
      }
    }
  }

  lemma MadeLive(txs: map<Key, Transaction>, txs': map<Key, Transaction>, wire: seq<Wire>, w: Wire, id: int)
    requires LiveOk(txs, wire) && FewerInvites(txs, txs') && w.Created? && w.request.owner == Some(id)
    requires Numbered(w, id) ==> NoInvite(txs', id)
    ensures LiveOk(txs', wire + [w])
  {
    var wire' := wire + [w];
    forall k | k in txs' && txs'[k].handler.InviteFinal?
      ensures Made(wire', txs'[k].handler.context.callId, BYE) == 0
              && Below(wire', txs'[k].handler.context.callId, txs'[k].handler.context.cseq + 1)
    {
      var x := txs'[k].handler.context.callId;
      MadeAppend(wire, w, x, BYE);
      if x == id {
        assert InviteOf(txs', k, id);
      }
      forall i | 0 <= i < |wire'| && Numbered(wire'[i], x)
        ensures wire'[i].request.cseq < txs'[k].handler.context.cseq + 1
      {
        assert i < |wire| && wire[i] == wire'[i];
      }
    }
  }

  lemma BelowAppend(wire: seq<Wire>, w: Wire, id: int, n: nat, m: nat)
    requires Below(wire, id, n) && n <= m && (Numbered(w, id) ==> w.request.cseq < m)
    ensures Below(wire + [w], id, m)
  {
    var wire' := wire + [w];
    forall i | 0 <= i < |wire'| && Numbered(wire'[i], id) ensures wire'[i].request.cseq < m {
      if i < |wire| {
        assert wire[i] == wire'[i];
      }
    }
  }

  // ---- Registration ----

  lemma StartIdle(a: Agent, now: int)
    ensures Idle(a, StartRegistration(a, now))
  {
  }

  lemma StopIdle(a: Agent, now: int)
    ensures Idle(a, StopRegistration(a, now))
  {
  }

  lemma RetryIdle(a: Agent, now: int)
    ensures Idle(a, OnTransportUp(a, now)) && Idle(a, TimeRegistration(a, now))
  {
  }

  lemma RegisterFinalIdle(a: Agent, response: Option<Response>, expires: nat, authenticated: bool, now: int)
    ensures Idle(a, OnRegisterFinal(a, response, expires, authenticated, now))
  {
  }

  lemma EndIdle(a: Agent, reason: EndReason, status: int)
    ensures Idle(a, EndCall(a, reason, status))
  {
  }

  /** A BYE ends the call: the only one for it, with a CSeq above all before. */
  lemma ByeAndEndRequested(a: Agent, reason: EndReason, status: int, now: int)
    requires Requested(a) && a.call.Some? && NoInvite(a.txs, a.call.value.id)
    ensures Requested(EndCall(SendBye(a, now), reason, status))
  {
    var c, s := a.call.value, EndCall(SendBye(a, now), reason, status);
    var w := Created(Key(a.names, BYE), ByeRequest(c));
    assert s.wire == a.wire + [w] && s.born == a.born && s.call.None?;
    MadeHistory(a.wire, a.born, w, c.id);
    assert FewerInvites(a.txs, s.txs);
    assert NoInvite(s.txs, c.id) by {
      forall k | k in s.txs ensures !InviteOf(s.txs, k, c.id) {
        assert k in a.txs ==> !InviteOf(a.txs, k, c.id);
      }
    }
    MadeLive(a.txs, s.txs, a.wire, w, c.id);
  }

  /** A CANCEL, once allowed. */
  lemma SendCancelRequested(a: Agent, now: int)
    requires Requested(a) && a.call.Some? && a.call.value.outgoing && a.call.value.provisional
             && a.call.value.cancelRequested
    requires !a.call.value.cancelSent
    ensures Requested(SendCancel(a, now))
  {
    var c, s := a.call.value, SendCancel(a, now);
    var w := Created(Key(c.inviteBranch, CANCEL), CancelRequest(c));
    assert s.wire == a.wire + [w];
    FactsStay(a.wire, s.wire, |a.wire|, |a.wire|);
    assert CancelJustified(s.wire, |a.wire|);
    MadeHistory(a.wire, a.born, w, c.id);
    assert FewerInvites(a.txs, s.txs);
    MadeLive(a.txs, s.txs, a.wire, w, c.id);
    MadeAppend(a.wire, w, c.id, INVITE);
    MadeAppend(a.wire, w, c.id, CANCEL);
    MadeAppend(a.wire, w, c.id, BYE);
    BelowAppend(a.wire, w, c.id, c.localCseq, c.localCseq);
    FactsStay(a.wire, s.wire, |a.wire|, |s.wire|);
  }

  /** What must hold before an INVITE is created. */
  ghost predicate MayInvite(a: Agent) {
    && History(a.wire, a.born) && LiveOk(a.txs, a.wire) && a.call.Some? && IdIn(a.born, a.call.value.id)
    && NoInvite(a.txs, a.call.value.id) && a.call.value.outgoing && !a.call.value.cancelSent
    && !a.call.value.cancelRequested
    && Made(a.wire, a.call.value.id, INVITE) == (if a.call.value.authenticated then 1 else 0)
    && Made(a.wire, a.call.value.id, CANCEL) == 0 && Made(a.wire, a.call.value.id, BYE) == 0
    && Below(a.wire, a.call.value.id, a.call.value.localCseq)
  }

  lemma SendInviteRequested(a: Agent, authorization: Option<string>, now: int)
    requires MayInvite(a)
    ensures Requested(SendInvite(a, authorization, now))
  {
    var c, s, key := a.call.value, SendInvite(a, authorization, now), Key(a.names, INVITE);
    var w := Created(key, InviteRequest(c, authorization));
    assert s.wire == a.wire + [w];
    MadeHistory(a.wire, a.born, w, c.id);
    MadeAppend(a.wire, w, c.id, INVITE);
    MadeAppend(a.wire, w, c.id, CANCEL);
    MadeAppend(a.wire, w, c.id, BYE);
    BelowAppend(a.wire, w, c.id, c.localCseq, c.localCseq + 1);
    assert s.wire[|a.wire|] == w;
    assert InvitedBy(s.wire, |s.wire|, c.id, a.names, c.localCseq);
    InviteLiveOk(a, s, key, w);
  }

  lemma InviteLiveOk(a: Agent, s: Agent, key: Key, w: Wire)
    requires LiveOk(a.txs, a.wire) && a.call.Some? && NoInvite(a.txs, a.call.value.id)
             && IsFirst(w, a.call.value.id, INVITE)
    requires s.wire == a.wire + [w] && key in s.txs && s.txs == a.txs[key := s.txs[key]]
             && s.txs[key].handler.InviteFinal?
    requires s.txs[key].handler.context.callId == a.call.value.id
    requires Made(s.wire, a.call.value.id, BYE) == 0
             && Below(s.wire, a.call.value.id, s.txs[key].handler.context.cseq + 1)
    ensures LiveOk(s.txs, s.wire)
  {
    var rest := a.txs - {key};
    MadeLive(a.txs, rest, a.wire, w, a.call.value.id) by {
      forall k | k in rest ensures !InviteOf(rest, k, a.call.value.id) {
        assert !InviteOf(a.txs, k, a.call.value.id);
      }
    }
    forall k | k in s.txs && s.txs[k].handler.InviteFinal?
      ensures Made(s.wire, s.txs[k].handler.context.callId, BYE) == 0
              && Below(s.wire, s.txs[k].handler.context.callId, s.txs[k].handler.context.cseq + 1)
    {
      if k != key {
        assert k in rest && rest[k] == s.txs[k];
      }
    }
  }

  // ---- Outgoing calls ----

  lemma DialRequested(a: Agent, id: int, target: string, host: Host, now: int)
    requires Requested(a) && Linked(a) && a.call.None? && !IdIn(a.born, id)
    ensures Requested(Dial(a, id, target, host, now))
  {
    var b, key := Begin(a, id, target, host), NewKey(a.cfg, host);
    assert b.born[|a.born|].id == id;
    UnownedHistory(a.wire, b.wire, a.born, b.born);
    assert Nothing(a.wire, id);
    BirthUnlinked(a, b, b.call.value, Born(id, true));
    if host.port == 0 || key.None? {
      assert EndCall(b, MediaFailed, 0).wire == a.wire;
    } else {
      var d := SetCall(b, WithOffer(a.cfg, b.call.value.(srtpKey := key.value)));
      assert Below(d.wire, id, d.call.value.localCseq);
      SendInviteRequested(d, None, now);
    }
  }

  /** What holds once the call's own INVITE has been closed. */
  ghost predicate Closing(a: Agent) {
    && Requested(a) && a.call.Some? && a.call.value.outgoing && NoInvite(a.txs, a.call.value.id)
  }

  lemma EstablishRequested(a: Agent, r: Response, host: Host, now: int)
    requires Closing(a)
    ensures Requested(Establish(a, r, host, now))
  {
    var c := a.call.value;
    if c.cancelRequested {
      ByeAndEndRequested(a, OwnReason(a), 0, now);
    } else if !UsableAnswer(a.cfg, r.answer) {
      ByeAndEndRequested(a, MediaFailed, 488, now);
    } else {
      var b := Do(a, StartByAnswer(a.cfg, c, r.answer.value, host.startOk));
      IdleKeeps(a, b);
      if !host.startOk {
        ByeAndEndRequested(b, MediaFailed, 488, now);
      } else {
        IdleKeeps(b, Emit(b, Event(Answered, c.id, r.status, NoReason)));
      }
    }
  }

  lemma TakenRequested(a: Agent, context: InviteContext, r: Response, host: Host, now: int)
    requires Closing(a) && Ours(a, context)
    ensures Requested(OnInviteSuccess(a, context, r, host, now))
  {
    var d := Confirming(a, context, r, host, now);
    IdleKeeps(a, d);
    EstablishRequested(d, r, host, now);
  }

  /** A 2xx for a call already given up: one BYE, numbered after its INVITE. */
  lemma LateByeRequested(a: Agent, context: InviteContext, r: Response, host: Host, now: int)
    requires Requested(a) && !Ours(a, context) && IdIn(a.born, context.callId) && NoInvite(a.txs, context.callId)
    requires Made(a.wire, context.callId, BYE) == 0 && Below(a.wire, context.callId, context.cseq + 1)
    requires a.call.Some? ==> a.call.value.id != context.callId
    ensures Requested(OnInviteSuccess(a, context, r, host, now))
  {
    var ack := AckFor(context, r, a.names);
    var b := Say(a.(names := a.names + 1), Acked(ack, context.callId));
    var s := OnInviteSuccess(a, context, r, host, now);
    var w := Created(Key(b.names, BYE), LateByeRequest(context, r));
    var key := Key(b.names, BYE);
    assert s == b.(names := s.names, wire := b.wire + [w], txs := a.txs[key := s.txs[key]]);
    IdleKeeps(a, b);
    UnownedMade(a.wire, b.wire, context.callId, BYE);
    UnownedBelow(a.wire, b.wire, context.callId, context.cseq + 1);
    LateByeSent(b, s, key, w, context.callId);
  }

  lemma LateByeSent(b: Agent, s: Agent, key: Key, w: Wire, id: int)
    requires Requested(b) && IdIn(b.born, id) && NoInvite(b.txs, id) && (b.call.Some? ==> b.call.value.id != id)
    requires key in s.txs && !s.txs[key].handler.InviteFinal?
    requires s == b.(names := s.names, wire := b.wire + [w], txs := b.txs[key := s.txs[key]])
    requires IsFirst(w, id, BYE) && Made(b.wire, id, BYE) == 0 && Below(b.wire, id, w.request.cseq)
    ensures Requested(s)
  {
    MadeHistory(b.wire, b.born, w, id);
    forall k | k in s.txs ensures !InviteOf(s.txs, k, id) {
      assert k in b.txs ==> !InviteOf(b.txs, k, id);
    }
    MadeLive(b.txs, s.txs, b.wire, w, id);
    if b.call.Some? {
      OtherCall(b.call.value, b.wire, w, id);
    }
  }

  lemma OtherCall(c: Call, wire: seq<Wire>, w: Wire, id: int)
    requires CallRequests(c, wire) && w.Created? && w.request.owner == Some(id) && id != c.id
    ensures CallRequests(c, wire + [w])
  {
    MadeAppend(wire, w, c.id, INVITE);
    MadeAppend(wire, w, c.id, CANCEL);
    MadeAppend(wire, w, c.id, BYE);
    BelowAppend(wire, w, c.id, c.localCseq, c.localCseq);
    FactsStay(wire, wire + [w], |wire|, |wire| + 1);
  }

  lemma InviteFailureRequested(a: Agent, response: Option<Response>, now: int)
    requires Closing(a)
    ensures Requested(OnInviteFailure(a, response, now))
  {
    var c := a.call.value;
    if response.None? {
      EndIdle(a, Timeout, 408);
      IdleKeeps(a, EndCall(a, Timeout, 408));
    } else if IsChallenge(response.value.status) && !c.authenticated && !c.cancelRequested
              && response.value.authorization.Some? {
      var b := SetCall(a, c.(authenticated := true));
      assert MayInvite(b);
      SendInviteRequested(b, response.value.authorization, now);
    } else {
      var reason := if c.cancelRequested then OwnReason(a) else Rejected;
      EndIdle(a, reason, response.value.status);
      IdleKeeps(a, EndCall(a, reason, response.value.status));
    }
  }

  lemma NoOther(txs: map<Key, Transaction>, key: Key)
    requires OneInvite(txs) && key in txs && txs[key].handler.InviteFinal?
    ensures NoInvite(txs - {key}, txs[key].handler.context.callId)
  {
  }

  lemma InviteFinishRequested(a: Agent, key: Key, response: Option<Response>, host: Host, now: int)
    requires Requested(a) && Linked(a) && key in a.txs && a.txs[key].handler.InviteFinal?
    ensures Requested(Finish(a, key, response, host, now))
  {
    var context, b := a.txs[key].handler.context, a.(txs := a.txs - {key});
    assert TxOk(key, a.txs[key], a.names, a.born);
    OursIsDialling(a, key);
    NoOther(a.txs, key);
    IdleKeeps(a, b);
    if response.Some? && response.value.status < 300 {
      if Ours(a, context) {
        TakenRequested(b, context, response.value, host, now);
      } else {
        LateByeRequested(b, context, response.value, host, now);
      }
    } else {
      var d := AckFailure(b, context, response);
      assert Idle(b, d);
      IdleKeeps(b, d);
      if Ours(a, context) {
        InviteFailureRequested(d, response, now);
      }
    }
  }

  lemma FinishRequested(a: Agent, key: Key, response: Option<Response>, host: Host, now: int)
    requires Requested(a) && Linked(a) && key in a.txs
    ensures Requested(Finish(a, key, response, host, now))
  {
    var b := a.(txs := a.txs - {key});
    match a.txs[key].handler
    case InviteFinal(context) => InviteFinishRequested(a, key, response, host, now);
    case RegisterFinal(expires, authenticated) =>
      IdleKeeps(a, b);
      RegisterFinalIdle(b, response, expires, authenticated, now);
      IdleKeeps(b, OnRegisterFinal(b, response, expires, authenticated, now));
    case Ignore => IdleKeeps(a, b);
  }

  lemma {:induction false} FailAllRequested(a: Agent, keys: seq<Key>, now: int)
    requires Requested(a) && Linked(a)
    ensures Requested(FailAll(a, keys, now))
    decreases |keys|
  {
    if keys != [] {
      if keys[0] in a.txs {
        FinishRequested(a, keys[0], None, NO_HOST, now);
        FinishLinked(a, keys[0], None, NO_HOST, now);
      }
      FailAllRequested(if keys[0] in a.txs then Finish(a, keys[0], None, NO_HOST, now) else a, keys[1..], now);
    }
  }

  lemma {:induction false} RetransmitAllIdle(a: Agent, order: seq<Key>, now: int)
    ensures Unowned(a.wire, RetransmitAll(a, order, now).wire) && FewerInvites(a.txs, RetransmitAll(a, order, now).txs)
    ensures RetransmitAll(a, order, now).call == a.call && RetransmitAll(a, order, now).born == a.born
    decreases |order|
  {
    if order != [] {
      RetransmitAllIdle(if order[0] in a.txs then Retransmit(a, order[0], now) else a, order[1..], now);
    }
  }

  /** A provisional response to the call's own INVITE. */
  lemma InviteProvisionalRequested(a: Agent, b: Agent, key: Key, status: int, now: int)
    requires Requested(a) && Idle(a, b) && HeardBy(b.wire, |b.wire|, key) && key.verb == INVITE
    requires b.call == a.call && a.call.Some? && a.call.value.outgoing && a.call.value.inviteBranch == key.branch
    ensures Requested(OnInviteProvisional(b, a.call.value.id, status, now))
  {
    IdleKeeps(a, b);
    var s := OnInviteProvisional(b, a.call.value.id, status, now);
    if b.call.value.state == Calling {
      var c := b.call.value.(provisional := true);
      var d := SetCall(b, c);
      HeardRequested(b, d, key);
      if c.cancelRequested && !c.cancelSent {
        SendCancelRequested(d, now);
      } else {
        ProgressRequested(d, s);
      }
    }
  }

  lemma HeardRequested(b: Agent, d: Agent, key: Key)
    requires Requested(b) && HeardBy(b.wire, |b.wire|, key) && key.verb == INVITE
    requires b.call.Some? && b.call.value.outgoing && b.call.value.inviteBranch == key.branch
    requires d == b.(call := Some(b.call.value.(provisional := true)))
    ensures Requested(d)
  {
    UnownedCall(b.call.value, d.call.value, b.wire, d.wire);
  }

  lemma ProgressRequested(d: Agent, s: Agent)
    requires Requested(d) && s == d.(queue := s.queue, log := s.log, call := s.call) && SameRecord(d.call, s.call)
    ensures Requested(s)
  {
    IdleKeeps(d, s);
  }

  lemma ProvisionalRequested(a: Agent, key: Key, status: int, now: int)
    requires Requested(a) && Linked(a) && key in a.txs
    ensures Requested(OnProvisional(a, key, status, now))
  {
    var b := Say(a, Heard(key)).(txs := a.txs[key := Soothe(a.txs[key], now)]);
    assert Idle(a, b);
    IdleKeeps(a, b);
    assert b.wire[|a.wire|] == Heard(key);
    if a.txs[key].handler.InviteFinal? {
      var id := a.txs[key].handler.context.callId;
      assert TxOk(key, a.txs[key], a.names, a.born);
      OursIsDialling(a, key);
      if a.call.Some? && a.call.value.id == id {
        InviteProvisionalRequested(a, b, key, status, now);
      }
    }
  }

  lemma ResponseRequested(a: Agent, r: Response, host: Host, now: int)
    requires Requested(a) && Linked(a)
    ensures Requested(OnResponse(a, r, host, now))
  {
    if r.verb.Some? && Key(r.branch, r.verb.value) in a.txs {
      var key := Key(r.branch, r.verb.value);
      if r.status < 200 {
        ProvisionalRequested(a, key, r.status, now);
      } else {
        FinishRequested(a, key, Some(r), host, now);
      }
    } else {
      IdleKeeps(a, OnResponse(a, r, host, now));
    }
  }

  // ---- Incoming calls and commands ----

  lemma RingRequested(a: Agent, q: Query, newId: int)
    requires Requested(a) && a.call.None? && !IdIn(a.born, newId) && q.offer.Some?
    ensures Requested(Ring(a, q, newId))
  {
    var s := Ring(a, q, newId);
    assert s.born[|a.born|].id == newId;
    UnownedHistory(a.wire, s.wire, a.born, s.born);
    UnownedLive(a.txs, s.txs, a.wire, s.wire);
    assert Nothing(a.wire, newId);
    UnownedMade(a.wire, s.wire, newId, INVITE);
    UnownedMade(a.wire, s.wire, newId, CANCEL);
    UnownedMade(a.wire, s.wire, newId, BYE);
    UnownedBelow(a.wire, s.wire, newId, 0);
  }

  lemma FollowSameRecord(a: Agent, offer: Audio, sdp: Option<LocalSdp>, host: Host)
    requires a.call.Some?
    ensures Follow(a, offer, sdp, host).born == a.born && SameRecord(a.call, Follow(a, offer, sdp, host).call)
  {
  }

  lemma AgreeSameRecord(a: Agent, q: Query, sdp: Option<LocalSdp>)
    requires a.call.Some?
    ensures Agree(a, q, sdp).born == a.born && SameRecord(a.call, Agree(a, q, sdp).call)
  {
  }

  lemma ReInviteSameRecord(a: Agent, q: Query, host: Host)
    requires a.call.Some?
    ensures ReInvite(a, q, host).born == a.born && SameRecord(a.call, ReInvite(a, q, host).call)
  {
    if !q.bodyEmpty && q.offer.Some? && Acceptable(a.cfg, q.offer.value) {
      var sdp := AgreedSdp(a.cfg, a.call.value, q.offer.value);
      var b := Follow(a, q.offer.value, sdp, host);
      FollowSameRecord(a, q.offer.value, sdp, host);
      if host.startOk {
        AgreeSameRecord(b, q, sdp);
        assert ReInvite(a, q, host) == Agree(b, q, sdp);
      }
    }
  }

  lemma InviteRequestSameRecord(a: Agent, q: Query, newId: int, host: Host)
    requires !OpensCall(a, q)
    ensures var b := OnInviteRequest(a, q, newId, host); b.born == a.born && SameRecord(a.call, b.call)
  {
    if a.call.Some? && a.call.value.sipCallId == q.callId
       && (a.call.value.outgoing || a.call.value.state == Confirmed) {
      ReInviteSameRecord(a, q, host);
      assert OnInviteRequest(a, q, newId, host) == ReInvite(a, q, host);
    }
  }

  lemma RequestSameRecord(a: Agent, q: Query, newId: int, host: Host, now: int)
    requires q.verb != INVITE || !q.complete || !OpensCall(a, q)
    ensures var b := OnRequest(a, q, newId, host, now); b.born == a.born && SameRecord(a.call, b.call)
  {
    if q.verb == INVITE && q.complete {
      InviteRequestSameRecord(a, q, newId, host);
      assert OnRequest(a, q, newId, host, now) == OnInviteRequest(a, q, newId, host);
    }
  }

  lemma RequestIdle(a: Agent, q: Query, newId: int, host: Host, now: int)
    requires q.verb != INVITE || !q.complete || !OpensCall(a, q)
    ensures Idle(a, OnRequest(a, q, newId, host, now))
  {
    RequestResponds(a, q, newId, host, now);
    RequestSameRecord(a, q, newId, host, now);
    RespondingIsIdle(a, OnRequest(a, q, newId, host, now));
  }

  lemma RequestRequested(a: Agent, q: Query, newId: int, host: Host, now: int)
    requires Requested(a) && !IdIn(a.born, newId)
    ensures Requested(OnRequest(a, q, newId, host, now))
  {
    if q.verb == INVITE && q.complete && OpensCall(a, q) {
      RingRequested(a, q, newId);
    } else {
      RequestIdle(a, q, newId, host, now);
      IdleKeeps(a, OnRequest(a, q, newId, host, now));
    }
  }

  lemma TakeUpIdle(a: Agent, host: Host, now: int)
    requires a.call.Some?
    ensures Idle(a, TakeUp(a, host, now))
  {
    var b, key := OpenFor(a, host), NewKey(a.cfg, host);
    assert Idle(a, b);
    if host.port == 0 || key.None? {
      RefusedIdle(a, b);
    } else {
      var e := StartFor(b, key.value, host);
      RefusedIdle(a, e);
      AnsweredIdle(a, e, now);
    }
  }

  lemma RefusedIdle(a: Agent, b: Agent)
    requires Idle(a, b) && b.call.Some?
    ensures Idle(a, RefuseAnswer(b))
  {
  }

  lemma AnsweredIdle(a: Agent, b: Agent, now: int)
    requires Idle(a, b) && b.call.Some?
    ensures Idle(a, SendAnswer(b, now))
  {
  }

  lemma RejectIdle(a: Agent, id: int, status: int)
    ensures Idle(a, Reject(a, id, status).1)
  {
  }

  lemma HangupCallingRequested(a: Agent, now: int)
    requires Requested(a) && a.call.Some? && a.call.value.outgoing
    ensures Requested(HangupCalling(a, now))
  {
    var c := a.call.value;
    if !c.cancelRequested {
      var c' := c.(cancelRequested := true);
      var b := Say(SetCall(a, c'), HangupAsked(c.id));
      assert b.wire[|a.wire|] == HangupAsked(c.id);
      UnownedHistory(a.wire, b.wire, a.born, b.born);
      UnownedLive(a.txs, b.txs, a.wire, b.wire);
      FactsStay(a.wire, b.wire, |a.wire|, |b.wire|);
      UnownedCall(c, c', a.wire, b.wire);
      if c.provisional {
        SendCancelRequested(b, now);
      }
    }
  }

  lemma HangupRequested(a: Agent, id: int, now: int)
    requires Requested(a) && Linked(a)
    requires a.call.Some? ==>
               var c := a.call.value;
               c.outgoing <==> (c.state == Calling || (c.outgoing && c.state == Confirmed))
    ensures Requested(Hangup(a, id, now).1)
  {
    if a.call.Some? && a.call.value.id == id {
      match a.call.value.state
      case Calling =>
        var b := HangupCalling(a, now);
        HangupCallingRequested(a, now);
        EndIdle(b, Shutdown, 0);
        IdleKeeps(b, EndCall(b, Shutdown, 0));
      case Ringing => IdleKeeps(a, Hangup(a, id, now).1);
      case Answering => ByeAndEndRequested(a, OwnReason(a), 0, now);
      case Confirmed => ByeAndEndRequested(a, OwnReason(a), 0, now);
    }
  }

  lemma ShutdownRequested(a: Agent, now: int)
    requires Requested(a) && Linked(a)
    requires a.call.Some? ==>
               var c := a.call.value;
               c.outgoing <==> (c.state == Calling || (c.outgoing && c.state == Confirmed))
    ensures Requested(BeginShutdown(a, now))
  {
    var b := a.(shutting := true);
    IdleKeeps(a, b);
    SameLinksKeep(a, b);
    var d := if a.call.Some? then Hangup(b, a.call.value.id, now).1 else b;
    if a.call.Some? {
      HangupRequested(b, a.call.value.id, now);
    }
    StopIdle(d, now);
    IdleKeeps(d, StopRegistration(d, now));
  }

  lemma TimeAnswerRequested(a: Agent, now: int)
    requires Requested(a) && Linked(a)
    ensures Requested(TimeAnswer(a, now))
  {
    if a.call.Some? && a.call.value.state == Answering && now >= a.call.value.ackDeadline {
      ByeAndEndRequested(a, Timeout, 408, now);
    } else {
      IdleKeeps(a, TimeAnswer(a, now));
    }
  }

  lemma TimerRequested(a: Agent, order: seq<Key>, now: int)
    requires Requested(a) && Linked(a)
    ensures Requested(OnTimer(a, order, now))
  {
    var b := RetransmitAll(a, order, now);
    var d := FailAll(b, Expired(a, order, now), now);
    RetransmitAllIdle(a, order, now);
    IdleKeeps(a, b);
    RetransmitAllLinked(a, order, now);
    FailAllRequested(b, Expired(a, order, now), now);
    FailAllLinked(b, Expired(a, order, now), now);
    TimeAnswerRequested(d, now);
    RetryIdle(TimeAnswer(d, now), now);
    IdleKeeps(TimeAnswer(d, now), OnTimer(a, order, now));
  }
}

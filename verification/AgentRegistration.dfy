/** Whether a wanted registration has a next step: a REGISTER in flight or an attempt scheduled. */
module AgentRegistration {
  import opened Prelude
  import opened AgentTypes
  import opened AgentSpec
  import opened AgentLinks
  import opened AgentTransport
  import opened AgentRuns

  /** Wanted, but neither in flight nor scheduled: nothing more happens until it is asked for again. */
  predicate Stalled(reg: Registration) {
    reg.wanted && !reg.inFlight && reg.nextAttempt.None?
  }

  /** A REGISTER that asks for a registration, or for its end. */
  predicate Registering(t: Transaction) { t.handler.RegisterFinal? && t.handler.expires > 0 }

  predicate Unregistering(t: Transaction) { t.handler.RegisterFinal? && t.handler.expires == 0 }

  predicate Reattempts(r: Response, authenticated: bool) {
    IsChallenge(r.status) && !authenticated && r.authorization.Some?
  }

  /** A final response after which nothing is sent or scheduled. */
  predicate Settles(r: Response, t: Transaction)
    requires t.handler.RegisterFinal?
  {
    && !Reattempts(r, t.handler.authenticated)
    && (Unregistering(t) || !(IsSuccess(r.status) || r.status == 408 || r.status >= 500))
  }

  // ---- Final responses and timeouts ----

  lemma FinalStalls(a: Agent, key: Key, r: Response, host: Host, now: int)
    requires key in a.txs && a.txs[key].handler.RegisterFinal?
    ensures Stalled(Finish(a, key, Some(r), host, now).reg) <==>
            a.reg.wanted && a.reg.nextAttempt.None? && Settles(r, a.txs[key])
  {
  }

  lemma OthersKeepRegisters(a: Agent, key: Key, response: Option<Response>, host: Host, now: int)
    requires key in a.txs && key.verb != REGISTER && !a.txs[key].handler.RegisterFinal?
    ensures SameRegisters(a, Finish(a, key, response, host, now))
  {
    if a.txs[key].handler.InviteFinal? {
      InviteFinalRegisters(a.(txs := a.txs - {key}), a.txs[key].handler.context, response, host, now);
    }
  }

  lemma TimeoutKeeps(a: Agent, key: Key, now: int)
    requires key in a.txs && Linked(a)
    ensures var b, t := Finish(a, key, None, NO_HOST, now), a.txs[key];
            && b.reg.wanted == a.reg.wanted
            && b.reg.inFlight == (a.reg.inFlight && !t.handler.RegisterFinal?)
            && b.reg.nextAttempt == (if a.reg.wanted && Registering(t) then Some(now + REGISTER_RETRY)
                                     else a.reg.nextAttempt)
  {
    assert TxOk(key, a.txs[key], a.names, a.born);
    if !a.txs[key].handler.RegisterFinal? {
      OthersKeepRegisters(a, key, None, NO_HOST, now);
    }
  }

  ghost predicate AnyRegistering(txs: map<Key, Transaction>, keys: seq<Key>) {
    exists k :: k in keys && k in txs && Registering(txs[k])
  }

  ghost predicate AnyUnregistering(txs: map<Key, Transaction>, keys: seq<Key>) {
    exists k :: k in keys && k in txs && Unregistering(txs[k])
  }

  lemma AnyFirst(txs: map<Key, Transaction>, keys: seq<Key>)
    requires keys != [] && keys[0] !in keys[1..]
    ensures AnyRegistering(txs, keys) <==>
            (keys[0] in txs && Registering(txs[keys[0]])) || AnyRegistering(txs - {keys[0]}, keys[1..])
    ensures AnyUnregistering(txs, keys) <==>
            (keys[0] in txs && Unregistering(txs[keys[0]])) || AnyUnregistering(txs - {keys[0]}, keys[1..])
  {
    assert forall k :: k in keys <==> k == keys[0] || k in keys[1..];
  }

  /** Failing transactions one after the other ends what is in flight, and schedules a registration that was wanted. */
  lemma {:induction false} FailAllRegisters(a: Agent, keys: seq<Key>, now: int)
    requires Linked(a) && forall i, j :: 0 <= i < j < |keys| ==> keys[i] != keys[j]
    ensures var r := FailAll(a, keys, now).reg;
            && r.wanted == a.reg.wanted
            && r.inFlight == (a.reg.inFlight && !AnyRegistering(a.txs, keys) && !AnyUnregistering(a.txs, keys))
            && r.nextAttempt == (if a.reg.wanted && AnyRegistering(a.txs, keys) then Some(now + REGISTER_RETRY)
                                 else a.reg.nextAttempt)
    decreases |keys|
  {
    if keys != [] {
      AnyFirst(a.txs, keys);
      if keys[0] in a.txs {
        TimeoutKeeps(a, keys[0], now);
        FinishTable(a, keys[0], now);
        FinishLinked(a, keys[0], None, NO_HOST, now);
        FailAllRegisters(Finish(a, keys[0], None, NO_HOST, now), keys[1..], now);
      } else {
        assert a.txs - {keys[0]} == a.txs;
        FailAllRegisters(a, keys[1..], now);
      }
    }
  }

  // ---- A tick ----

  ghost predicate DueRegistering(a: Agent, now: int) {
    exists k :: k in a.txs && Registering(a.txs[k]) && Due(a.txs[k], now)
  }

  ghost predicate DueUnregistering(a: Agent, now: int) {
    exists k :: k in a.txs && Unregistering(a.txs[k]) && Due(a.txs[k], now)
  }

  lemma {:induction false} ExpiredExactly(a: Agent, order: seq<Key>, now: int)
    requires forall i, j :: 0 <= i < j < |order| ==> order[i] != order[j]
    ensures var keys := Expired(a, order, now);
            && (forall k :: k in keys <==> k in order && k in a.txs && Due(a.txs[k], now))
            && (forall i, j :: 0 <= i < j < |keys| ==> keys[i] != keys[j])
    decreases |order|
  {
    if order != [] {
      ExpiredExactly(a, order[1..], now);
    }
  }

  lemma {:induction false} RetransmitAllHandlers(a: Agent, order: seq<Key>, now: int)
    ensures var b := RetransmitAll(a, order, now);
            && b.reg == a.reg && b.txs.Keys == a.txs.Keys
            && forall k :: k in a.txs ==> b.txs[k].handler == a.txs[k].handler
    decreases |order|
  {
    if order != [] {
      RetransmitAllHandlers(if order[0] in a.txs then Retransmit(a, order[0], now) else a, order[1..], now);
    }
  }

  /** The registration after a tick's timeouts, before the tick looks at the next attempt. */
  lemma TimeoutsRegister(a: Agent, order: seq<Key>, now: int)
    requires Linked(a) && IsOrder(order, a.txs.Keys)
    ensures var r := TimeAnswer(FailAll(RetransmitAll(a, order, now), Expired(a, order, now), now), now).reg;
            && r.wanted == a.reg.wanted
            && r.inFlight == (a.reg.inFlight && !DueRegistering(a, now) && !DueUnregistering(a, now))
            && r.nextAttempt == (if a.reg.wanted && DueRegistering(a, now) then Some(now + REGISTER_RETRY)
                                 else a.reg.nextAttempt)
  {
    var b, keys := RetransmitAll(a, order, now), Expired(a, order, now);
    var d := FailAll(b, keys, now);
    RetransmitAllHandlers(a, order, now);
    RetransmitAllLinked(a, order, now);
    ExpiredExactly(a, order, now);
    FailAllRegisters(b, keys, now);
    DueOnes(a, b, keys, now);
    TimeAnswerRegisters(d, now);
  }

  lemma DueOnes(a: Agent, b: Agent, keys: seq<Key>, now: int)
    requires b.txs.Keys == a.txs.Keys && forall k :: k in a.txs ==> b.txs[k].handler == a.txs[k].handler
    requires forall k :: k in keys <==> k in a.txs && Due(a.txs[k], now)
    ensures AnyRegistering(b.txs, keys) <==> DueRegistering(a, now)
    ensures AnyUnregistering(b.txs, keys) <==> DueUnregistering(a, now)
  {
  }

  predicate AttemptDue(reg: Registration, now: int) {
    reg.wanted && reg.nextAttempt.Some? && reg.nextAttempt.value <= now
  }

  /** A tick leaves a wanted attempt in the past exactly if it was due, and a REGISTER in flight is not due yet. */
  lemma AttemptLeftExactly(a: Agent, order: seq<Key>, now: int)
    requires Inv(a) && IsOrder(order, a.txs.Keys)
    ensures AttemptDue(OnTimer(a, order, now).reg, now) <==>
            AttemptDue(a.reg, now) && a.reg.inFlight && !DueRegistering(a, now) && !DueUnregistering(a, now)
  {
    TimeoutsRegister(a, order, now);
  }

  // ---- Every input ----

  /** Whether the response is the final one to a live REGISTER. */
  predicate FinalToRegister(a: Agent, r: Response) {
    r.verb == Some(REGISTER) && r.status >= 200 && Key(r.branch, REGISTER) in a.txs
    && a.txs[Key(r.branch, REGISTER)].handler.RegisterFinal?
  }

  /** Whether a wanted registration is stalled after the input, told from the state before it. */
  ghost predicate WillStall(a: Agent, i: Input) {
    match i
    case Start(_) => false
    case Stop(_) => false
    case Quit(_) => false
    case Up(_) => false
    case ResponseIn(r, _, _) =>
      if FinalToRegister(a, r) then
        a.reg.wanted && a.reg.nextAttempt.None? && Settles(r, a.txs[Key(r.branch, REGISTER)])
      else Stalled(a.reg)
    case Tick(_, now) =>
      && a.reg.wanted && a.reg.nextAttempt.None?
      && !DueRegistering(a, now) && (a.reg.inFlight ==> DueUnregistering(a, now))
    case Down(_, _) =>
      a.reg.wanted && a.reg.nextAttempt.None? && forall k :: k in a.txs ==> !Registering(a.txs[k])
    case _ => Stalled(a.reg)
  }

  lemma ResponseStalls(a: Agent, r: Response, host: Host, now: int)
    requires Linked(a)
    ensures Stalled(OnResponse(a, r, host, now).reg) <==> WillStall(a, ResponseIn(r, host, now))
  {
    if r.verb.Some? && Key(r.branch, r.verb.value) in a.txs {
      var key := Key(r.branch, r.verb.value);
      assert TxOk(key, a.txs[key], a.names, a.born);
      if r.status < 200 {
        ProvisionalRegisters(a, key, r.status, now);
      } else if key.verb == REGISTER {
        FinalStalls(a, key, r, host, now);
      } else {
        OthersKeepRegisters(a, key, Some(r), host, now);
      }
    }
  }

  lemma TickStalls(a: Agent, order: seq<Key>, now: int)
    requires Linked(a) && IsOrder(order, a.txs.Keys)
    ensures Stalled(OnTimer(a, order, now).reg) <==> WillStall(a, Tick(order, now))
  {
    TimeoutsRegister(a, order, now);
  }

  lemma DownStalls(a: Agent, order: seq<Key>, now: int)
    requires Linked(a) && RegisterLive(a) && IsOrder(order, a.txs.Keys)
    ensures Stalled(OnTransportDown(a, order, now).reg) <==> WillStall(a, Down(order, now))
  {
    DownIsFailAll(a, order, now);
    FailAllRegisters(a, order, now);
    assert AnyRegistering(a.txs, order) <==> exists k :: k in a.txs && Registering(a.txs[k]);
    if a.reg.inFlight {
      var k :| k in a.txs && k.verb == REGISTER;
      assert TxOk(k, a.txs[k], a.names, a.born);
      assert Registering(a.txs[k]) || Unregistering(a.txs[k]);
    }
  }

  lemma CommandsNeverStall(a: Agent, i: Input)
    requires ShutDown(a) && (i.Start? || i.Stop? || i.Quit? || i.Up?)
    ensures !Stalled(Step(a, i).reg)
  {
    if i.Quit? {
      var b := a.(shutting := true);
      var d := if a.call.Some? then Hangup(b, a.call.value.id, i.now).1 else b;
      assert Step(a, i) == StopRegistration(d, i.now);
    }
  }

  lemma CallsKeepRegisters(a: Agent, i: Input)
    requires i.Place? || i.Pick? || i.Refuse? || i.Drop? || i.RequestIn? || i.Collect?
    ensures SameRegisters(a, Step(a, i))
  {
    match i
    case Place(id, target, host, now) => DialRegisters(a, id, target, host, now);
    case Pick(id, host, now) => IncomingRegisters(a, id, 0, host, now);
    case Refuse(id, status) => IncomingRegisters(a, id, status, NO_HOST, 0);
    case Drop(id, now) => HangupRegisters(a, id, now);
    case RequestIn(q, newId, host, now) => RequestRegisters(a, q, newId, host, now);
    case Collect =>
  }

  /** Exactly when a wanted registration has neither a REGISTER in flight nor an attempt scheduled after an input. */
  lemma StallsExactly(a: Agent, i: Input)
    requires Inv(a) && Allowed(a, i)
    ensures Stalled(Step(a, i).reg) <==> WillStall(a, i)
  {
    match i
    case ResponseIn(r, host, now) => ResponseStalls(a, r, host, now);
    case Tick(order, now) => TickStalls(a, order, now);
    case Down(order, now) => DownStalls(a, order, now);
    case Start(_) => CommandsNeverStall(a, i);
    case Stop(_) => CommandsNeverStall(a, i);
    case Quit(_) => CommandsNeverStall(a, i);
    case Up(_) => CommandsNeverStall(a, i);
    case _ => CallsKeepRegisters(a, i);
  }

  // ---- Every run ----

  /** The REGISTER in flight ends with nothing scheduled: an unregister while wanted, or a refusal for good. */
  ghost predicate Enters(a: Agent, i: Input) {
    && a.reg.wanted && a.reg.inFlight && a.reg.nextAttempt.None?
    && match i
       case ResponseIn(r, _, _) => FinalToRegister(a, r) && Settles(r, a.txs[Key(r.branch, REGISTER)])
       case Tick(_, now) => DueUnregistering(a, now) && !DueRegistering(a, now)
       case Down(_, _) => forall k :: k in a.txs ==> !Registering(a.txs[k])
       case _ => false
  }

  /** A stalled registration is asked for again or given up, or a REGISTER thought settled still ends otherwise. */
  ghost predicate Leaves(a: Agent, i: Input) {
    match i
    case Start(_) => true
    case Stop(_) => true
    case Quit(_) => true
    case Up(_) => true
    case ResponseIn(r, _, _) => FinalToRegister(a, r) && !Settles(r, a.txs[Key(r.branch, REGISTER)])
    case Tick(_, now) => DueRegistering(a, now)
    case Down(_, _) => exists k :: k in a.txs && Registering(a.txs[k])
    case _ => false
  }

  lemma EntersOrStays(a: Agent, i: Input)
    requires Inv(a) && Allowed(a, i)
    ensures Stalled(Step(a, i).reg) <==> Enters(a, i) || (Stalled(a.reg) && !Leaves(a, i))
  {
    StallsExactly(a, i);
  }

  /** Input k stalls the registration, and no later one frees it. */
  ghost predicate StalledSince(a: Agent, inputs: seq<Input>, k: nat)
    requires k < |inputs|
  {
    && Enters(Run(a, inputs[..k]), inputs[k])
    && forall j :: k < j < |inputs| ==> !Leaves(Run(a, inputs[..j]), inputs[j])
  }

  lemma SinceOneMore(a: Agent, front: seq<Input>, i: Input, k: nat)
    requires k < |front|
    ensures StalledSince(a, front + [i], k) <==> StalledSince(a, front, k) && !Leaves(Run(a, front), i)
  {
    var inputs := front + [i];
    assert inputs[..k] == front[..k] && inputs[..|front|] == front;
    assert forall j :: k < j < |front| ==> inputs[..j] == front[..j] && inputs[j] == front[j];
    if StalledSince(a, inputs, k) {
      forall j | k < j < |front| ensures !Leaves(Run(a, front[..j]), front[j]) {
        assert !Leaves(Run(a, inputs[..j]), inputs[j]);
      }
      assert !Leaves(Run(a, inputs[..|front|]), inputs[|front|]);
    }
  }

  lemma SinceNow(a: Agent, front: seq<Input>, i: Input)
    ensures StalledSince(a, front + [i], |front|) <==> Enters(Run(a, front), i)
  {
    assert (front + [i])[..|front|] == front;
  }

  /** In every run a wanted registration is stalled exactly if some input stalled it and no later one freed it. */
  lemma {:induction false} StalledRunExactly(cfg: Config, inputs: seq<Input>)
    requires AllowedRun(Init(cfg), inputs)
    ensures Stalled(Run(Init(cfg), inputs).reg) <==>
            exists k :: 0 <= k < |inputs| && StalledSince(Init(cfg), inputs, k)
    decreases |inputs|
  {
    if inputs != [] {
      var front, i := inputs[..|inputs| - 1], inputs[|inputs| - 1];
      assert inputs == front + [i];
      RunOneMore(Init(cfg), front, i);
      StalledRunExactly(cfg, front);
      ReachableInv(cfg, front);
      EntersOrStays(Run(Init(cfg), front), i);
      StalledOneMore(Init(cfg), front, i);
    }
  }

  lemma StalledOneMore(a: Agent, front: seq<Input>, i: Input)
    ensures (exists k :: 0 <= k < |front + [i]| && StalledSince(a, front + [i], k)) <==>
            || Enters(Run(a, front), i)
            || ((exists k :: 0 <= k < |front| && StalledSince(a, front, k)) && !Leaves(Run(a, front), i))
  {
    SinceNow(a, front, i);
    forall k | 0 <= k < |front|
      ensures StalledSince(a, front + [i], k) <==> StalledSince(a, front, k) && !Leaves(Run(a, front), i)
    {
      SinceOneMore(a, front, i, k);
    }
  }

  // ---- Runs in which it happens ----

  ghost predicate LiveRegister(a: Agent, branch: Name, expires: nat) {
    Key(branch, REGISTER) in a.txs && a.txs[Key(branch, REGISTER)].handler == RegisterFinal(expires, false)
  }

  /** A final response to a REGISTER: credentials are computed for a challenge, and a 200 grants ten seconds. */
  function Final(status: int, branch: Name): Input {
    ResponseIn(Response(status, branch, Some(REGISTER), Own(0), "<sip:me@example.org>;tag=far", None,
                        if IsChallenge(status) then Some(CREDENTIALS) else None,
                        if IsSuccess(status) then Some(10) else None, None),
               NO_HOST, 0)
  }

  /** A start with nothing in flight. */
  lemma Starts(z: Agent, inputs: seq<Input>, a: Agent) returns (inputs': seq<Input>, b: Agent)
    requires Reaches(z, inputs, a) && !a.shutting && !a.reg.inFlight
    ensures inputs' == inputs + [AgentSpec.Start(0)] && Reaches(z, inputs', b)
    ensures b.reg.wanted && b.reg.inFlight && b.reg.nextAttempt.None? && !b.shutting && b.cfg == a.cfg
    ensures b.names == a.names + 1 && LiveRegister(b, a.names, a.cfg.registerExpires)
    ensures b.txs.Keys == a.txs.Keys + {Key(a.names, REGISTER)}
  {
    inputs' := Onwards(z, inputs, a, AgentSpec.Start(0));
    b := Step(a, AgentSpec.Start(0));
  }

  /** A stop with something in flight or in place. */
  lemma Stops(z: Agent, inputs: seq<Input>, a: Agent) returns (inputs': seq<Input>, b: Agent)
    requires Reaches(z, inputs, a) && !a.shutting && (a.reg.inFlight || a.reg.registered)
    ensures inputs' == inputs + [Stop(0)] && Reaches(z, inputs', b)
    ensures b.reg.inFlight && !b.shutting && b.cfg == a.cfg && b.names == a.names + 1 && LiveRegister(b, a.names, 0)
    ensures b.txs.Keys == a.txs.Keys + {Key(a.names, REGISTER)}
    ensures forall k :: k in a.txs && k != Key(a.names, REGISTER) ==> b.txs[k] == a.txs[k]
  {
    inputs' := Onwards(z, inputs, a, Stop(0));
    b := Step(a, Stop(0));
  }

  /** A start with a REGISTER in flight only says that the registration is wanted. */
  lemma StartsLate(z: Agent, inputs: seq<Input>, a: Agent) returns (inputs': seq<Input>, b: Agent)
    requires Reaches(z, inputs, a) && !a.shutting && a.reg.inFlight
    ensures inputs' == inputs + [AgentSpec.Start(0)] && Reaches(z, inputs', b)
    ensures b == a.(reg := a.reg.(wanted := true, nextAttempt := None))
  {
    inputs' := Onwards(z, inputs, a, AgentSpec.Start(0));
    b := Step(a, AgentSpec.Start(0));
  }

  /** A 200 to a REGISTER that registers. */
  lemma Succeeds(z: Agent, inputs: seq<Input>, a: Agent, branch: Name, expires: nat)
    returns (inputs': seq<Input>, b: Agent)
    requires Reaches(z, inputs, a) && LiveRegister(a, branch, expires) && expires > 0 && a.reg.wanted && !a.shutting
    ensures inputs' == inputs + [Final(200, branch)] && Reaches(z, inputs', b)
    ensures b.reg == a.reg.(registered := true, inFlight := false, nextAttempt := Some(MINIMUM_REFRESH))
    ensures b.txs == a.txs - {Key(branch, REGISTER)} && !b.shutting && b.cfg == a.cfg && b.names == a.names
  {
    inputs' := Onwards(z, inputs, a, Final(200, branch));
    b := Step(a, Final(200, branch));
  }

  /** Any final response but a challenge to a REGISTER that unregisters. */
  lemma Unregisters(z: Agent, inputs: seq<Input>, a: Agent, branch: Name) returns (inputs': seq<Input>, b: Agent)
    requires Reaches(z, inputs, a) && LiveRegister(a, branch, 0)
    ensures inputs' == inputs + [Final(200, branch)] && Reaches(z, inputs', b) && b.reg == a.reg.(inFlight := false)
  {
    inputs' := Onwards(z, inputs, a, Final(200, branch));
    b := Step(a, Final(200, branch));
  }

  /** A refusal for good. */
  lemma IsRefused(z: Agent, inputs: seq<Input>, a: Agent, branch: Name, expires: nat)
    returns (inputs': seq<Input>, b: Agent)
    requires Reaches(z, inputs, a) && LiveRegister(a, branch, expires) && expires > 0 && a.reg.wanted
    ensures inputs' == inputs + [Final(403, branch)] && Reaches(z, inputs', b)
    ensures b.reg == a.reg.(registered := false, inFlight := false)
  {
    inputs' := Onwards(z, inputs, a, Final(403, branch));
    b := Step(a, Final(403, branch));
  }

  /** A challenge to a REGISTER that unregisters. */
  lemma IsChallenged(z: Agent, inputs: seq<Input>, a: Agent, branch: Name) returns (inputs': seq<Input>, b: Agent)
    requires Reaches(z, inputs, a) && LiveRegister(a, branch, 0) && a.txs.Keys == {Key(branch, REGISTER)}
    ensures inputs' == inputs + [Final(401, branch)] && Reaches(z, inputs', b)
    ensures b.reg == a.reg.(inFlight := true, cseq := a.reg.cseq + 1)
    ensures b.txs.Keys == {Key(a.names, REGISTER)} && b.txs[Key(a.names, REGISTER)].deadline == TRANSACTION_TIMEOUT
  {
    inputs' := Onwards(z, inputs, a, Final(401, branch));
    b := Step(a, Final(401, branch));
  }

  /**
   * The claim that a wanted registration is always in flight or scheduled is false: start, 200, stop, start, and the
   * 200 to the unregister.
   */
  lemma RestartStalls(cfg: Config) returns (inputs: seq<Input>)
    requires cfg.registerExpires > 0
    ensures inputs == [AgentSpec.Start(0), Final(200, 1), Stop(0), AgentSpec.Start(0), Final(200, 2)]
    ensures AllowedRun(Init(cfg), inputs) && Stalled(Run(Init(cfg), inputs).reg)
  {
    var z := Init(cfg);
    var a, b, c, d, e;
    inputs, a := Starts(z, [], z);
    inputs, b := Succeeds(z, inputs, a, 1, cfg.registerExpires);
    inputs, c := Stops(z, inputs, b);
    inputs, d := StartsLate(z, inputs, c);
    inputs, e := Unregisters(z, inputs, d, 2);
  }

  /** Nor is it after a refusal: start, 403. */
  lemma RefusalStalls(cfg: Config) returns (inputs: seq<Input>)
    requires cfg.registerExpires > 0
    ensures inputs == [AgentSpec.Start(0), Final(403, 1)]
    ensures AllowedRun(Init(cfg), inputs) && Stalled(Run(Init(cfg), inputs).reg)
  {
    var z := Init(cfg);
    var a, b;
    inputs, a := Starts(z, [], z);
    inputs, b := IsRefused(z, inputs, a, 1, cfg.registerExpires);
  }

  /** A refresh scheduled while an unregister is in flight. */
  lemma Overlaps(cfg: Config) returns (inputs: seq<Input>, a: Agent, key: Key)
    requires cfg.registerExpires > 0
    ensures inputs == [AgentSpec.Start(0), Stop(0), AgentSpec.Start(0), Final(200, 1), Final(401, 2)]
    ensures Reaches(Init(cfg), inputs, a) && AttemptDue(a.reg, MINIMUM_REFRESH) && a.reg.inFlight
    ensures a.txs.Keys == {key} && a.txs[key].deadline == TRANSACTION_TIMEOUT
  {
    var z := Init(cfg);
    var b, c, d, e;
    inputs, b := Starts(z, [], z);
    inputs, c := Stops(z, inputs, b);
    inputs, d := StartsLate(z, inputs, c);
    inputs, e := Succeeds(z, inputs, d, 1, cfg.registerExpires);
    assert e.txs.Keys == {Key(2, REGISTER)};
    inputs, a := IsChallenged(z, inputs, e, 2);
    key := Key(e.names, REGISTER);
  }

  lemma NotDueYet(a: Agent, key: Key, now: int)
    requires Inv(a) && a.txs.Keys == {key} && a.txs[key].deadline > now && AttemptDue(a.reg, now) && a.reg.inFlight
    ensures IsOrder([key], a.txs.Keys) && AttemptDue(Step(a, Tick([key], now)).reg, now)
  {
    AttemptLeftExactly(a, [key], now);
  }

  /**
   * The claim that no attempt lies in the past after a tick is false: start, stop, start, 200 to the first REGISTER, a
   * challenge to the unregister, and a tick when the refresh is due.
   */
  lemma AttemptIsLeft(cfg: Config) returns (inputs: seq<Input>, key: Key)
    requires cfg.registerExpires > 0
    ensures inputs == [AgentSpec.Start(0), Stop(0), AgentSpec.Start(0), Final(200, 1), Final(401, 2),
                       Tick([key], MINIMUM_REFRESH)]
    ensures AllowedRun(Init(cfg), inputs) && AttemptDue(Run(Init(cfg), inputs).reg, MINIMUM_REFRESH)
  {
    var a;
    inputs, a, key := Overlaps(cfg);
    ReachableInv(cfg, inputs);
    NotDueYet(a, key, MINIMUM_REFRESH);
    inputs := Onwards(Init(cfg), inputs, a, Tick([key], MINIMUM_REFRESH));
  }
}

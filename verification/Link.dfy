/** The signalling connection: which connection's bytes reach the framer, and in which order. */
module Link {
  import opened Prelude
  import opened Framing

  datatype Kind = Connected | Data(bytes: string) | Closed

  /** What a connection reports; `generation` tells connections apart. */
  datatype Event = Event(generation: nat, kind: Kind)

  datatype Status = Down | Connecting | Up

  /**
   * `inbox` is filled by the connections' threads; the rest belongs to the network thread. `batch` is what it took from
   * the inbox and has not handled, `buffer` the framer's. Of the current generation `pushed` holds the bytes given to
   * the framer and `messages` what came out of it and was given to the agent; `past` holds both for the generations
   * before. `listeners` holds the generations that got a connection and `delivered` what each of them has reported.
   */
  datatype State = State(generation: nat, status: Status, inbox: seq<Event>, batch: seq<Event>, buffer: string,
                         pushed: string, messages: seq<string>, past: map<nat, Episode>, listeners: set<nat>,
                         delivered: map<nat, string>, ups: nat, downs: nat)

  /** The bytes a generation put into the framer, and the messages the agent was given from them. */
  datatype Episode = Episode(fed: string, given: seq<string>)

  const START: State := State(0, Down, [], [], "", "", [], map[], {}, map[], 0, 0)

  datatype Action =
    | Post(event: Event)       // a connection's thread reports something
    | Take                     // the network thread swaps the inbox out
    | Handle                   // and handles the next event
    | Connect(ok: bool)        // a new connection, or the attempt fails at once
    | Relink                   // a connection that looks fine is given up

  predicate Enabled(s: State, a: Action) {
    match a
    case Post(e) => e.generation in s.listeners
    case Take => s.batch == []
    case Handle => s.batch != []
    case Connect(_) => s.batch == [] && s.status == Down
    case Relink => s.batch == [] && s.status == Up
  }

  function BytesOf(e: Event): string { if e.kind.Data? then e.kind.bytes else "" }

  function Delivered(s: State, generation: nat): string {
    if generation in s.delivered then s.delivered[generation] else ""
  }

  /** A new generation begins with an empty framer. */
  function NewGeneration(s: State, status: Status): State {
    s.(generation := s.generation + 1, status := status, buffer := "", pushed := "", messages := [],
       past := s.past[s.generation := Episode(s.pushed, s.messages)])
  }

  /** The connection is gone: late reports from it will be ignored, and the agent is told. */
  function Drop(s: State): State {
    NewGeneration(s, Down).(downs := s.downs + 1)
  }

  /** Bytes go to the framer, and every complete message to the agent; a framing error then costs the connection. */
  function Push(s: State, bytes: string): State {
    var all := Frames(s.buffer + bytes);
    var t := s.(buffer := all.rest, pushed := s.pushed + bytes, messages := s.messages + all.messages);
    if all.failed then Drop(t) else t
  }

  function HandleEvent(s: State, e: Event): State {
    if e.generation != s.generation then s
    else
      match e.kind
      case Connected => s.(status := Up, ups := s.ups + 1)
      case Data(bytes) => Push(s, bytes)
      case Closed => Drop(s)
  }

  function Next(s: State, a: Action): State
    requires Enabled(s, a)
  {
    match a
    case Post(e) =>
      s.(inbox := s.inbox + [e], delivered := s.delivered[e.generation := Delivered(s, e.generation) + BytesOf(e)])
    case Take => s.(batch := s.inbox, inbox := [])
    case Handle => HandleEvent(s.(batch := s.batch[1..]), s.batch[0])
    case Connect(ok) =>
      var t := NewGeneration(s, if ok then Connecting else Down);
      t.(listeners := s.listeners + {t.generation})
    case Relink => Drop(s)
  }

  // ---- What always holds ----

  /** The bytes that events of one generation carry. */
  function BytesIn(events: seq<Event>, generation: nat): string {
    if events == [] then ""
    else (if events[0].generation == generation then BytesOf(events[0]) else "") + BytesIn(events[1..], generation)
  }

  lemma {:induction false} BytesInAppend(events: seq<Event>, more: seq<Event>, generation: nat)
    ensures BytesIn(events + more, generation) == BytesIn(events, generation) + BytesIn(more, generation)
    decreases |events|
  {
    if events == [] {
      assert events + more == more;
    } else {
      var first := if events[0].generation == generation then BytesOf(events[0]) else "";
      assert (events + more)[1..] == events[1..] + more;
      BytesInAppend(events[1..], more, generation);
      assert first + (BytesIn(events[1..], generation) + BytesIn(more, generation))
          == (first + BytesIn(events[1..], generation)) + BytesIn(more, generation);
    }
  }

  lemma {:induction false} NoBytesOfOthers(events: seq<Event>, generation: nat)
    requires forall i :: 0 <= i < |events| ==> events[i].generation != generation
    ensures BytesIn(events, generation) == ""
    decreases |events|
  {
    if events != [] {
      NoBytesOfOthers(events[1..], generation);
    }
  }

  ghost predicate From(events: seq<Event>, listeners: set<nat>) {
    forall i :: 0 <= i < |events| ==> events[i].generation in listeners
  }

  /** Reports come from connections that were made, none of them later than the current generation. */
  ghost predicate Known(s: State) {
    && (forall g :: g in s.listeners ==> g <= s.generation)
    && From(s.inbox, s.listeners) && From(s.batch, s.listeners)
    && (forall g :: g in s.delivered ==> g in s.listeners)
  }

  /** What the current connection delivered is in the framer, taken, or in the inbox, in this order; nothing else is. */
  ghost predicate Conserved(s: State) {
    s.pushed + BytesIn(s.batch, s.generation) + BytesIn(s.inbox, s.generation) == Delivered(s, s.generation)
  }

  /** The framer stands where one-shot framing of the bytes pushed stands, and its messages have been passed on. */
  ghost predicate Framed(s: State) {
    Frames(s.pushed) == Stream(s.messages, false, s.buffer)
  }

  /** The agent was given exactly the messages in what the generation fed to the framer, its first bytes. */
  ghost predicate Honest(e: Episode, delivered: string) {
    e.fed <= delivered && e.given == Frames(e.fed).messages
  }

  ghost predicate Recorded(s: State) {
    forall g :: g in s.past ==> g < s.generation && Honest(s.past[g], Delivered(s, g))
  }

  ghost predicate Inv(s: State) { Known(s) && Conserved(s) && Framed(s) && Recorded(s) }

  lemma EmptyFrames()
    ensures Frames("") == Stream([], false, "")
  {
    assert CutMessage("") == Wait("");
  }

  lemma StartInv()
    ensures Inv(START)
  {
    EmptyFrames();
  }

  lemma PushedIsFirst(s: State)
    requires Conserved(s)
    ensures s.pushed <= Delivered(s, s.generation)
  {
    Associative(s.pushed, BytesIn(s.batch, s.generation), BytesIn(s.inbox, s.generation));
  }

  /** A generation that never had a connection has delivered nothing. */
  lemma FreshGeneration(s: State, status: Status)
    requires Known(s) && Conserved(s) && Recorded(s) && s.messages == Frames(s.pushed).messages
    ensures Inv(NewGeneration(s, status))
  {
    var t := NewGeneration(s, status);
    NoBytesOfOthers(s.batch, t.generation);
    NoBytesOfOthers(s.inbox, t.generation);
    EmptyFrames();
    PushedIsFirst(s);
  }

  lemma DropInv(s: State)
    requires Known(s) && Conserved(s) && Recorded(s) && s.messages == Frames(s.pushed).messages
    ensures Inv(Drop(s))
  {
    FreshGeneration(s, Down);
  }

  /** Pushing goes on where framing of the earlier bytes stood. */
  lemma PushFrames(s: State, bytes: string)
    requires Framed(s)
    ensures var all, more := Frames(s.pushed + bytes), Frames(s.buffer + bytes);
            all.failed == more.failed && all.rest == more.rest && all.messages == s.messages + more.messages
  {
    FramesAppend(s.pushed, bytes);
  }

  lemma HandleConserved(s: State)
    requires s.batch != [] && Conserved(s)
    ensures var e := s.batch[0];
            && (e.generation != s.generation ==> Conserved(s.(batch := s.batch[1..])))
            && (e.generation == s.generation ==> Conserved(s.(batch := s.batch[1..], pushed := s.pushed + BytesOf(e))))
  {
    var e, rest := s.batch[0], BytesIn(s.batch[1..], s.generation);
    if e.generation == s.generation {
      assert s.pushed + (BytesOf(e) + rest) == (s.pushed + BytesOf(e)) + rest;
    } else {
      assert "" + rest == rest;
    }
  }

  lemma PushInv(s: State, t: State, bytes: string)
    requires Known(t) && Framed(t) && Recorded(t) && Conserved(t.(pushed := t.pushed + bytes))
    requires s == Push(t, bytes)
    ensures Inv(s)
  {
    PushFrames(t, bytes);
    var all := Frames(t.buffer + bytes);
    var u := t.(buffer := all.rest, pushed := t.pushed + bytes, messages := t.messages + all.messages);
    assert Conserved(u) && Known(u) && Recorded(u);
    if all.failed {
      DropInv(u);
    }
  }

  lemma HandleInv(s: State)
    requires Inv(s) && s.batch != []
    ensures Inv(Next(s, Handle))
  {
    var e, t := s.batch[0], s.(batch := s.batch[1..]);
    HandleConserved(s);
    assert Known(t) && Recorded(t) && Framed(t);
    if e.generation == s.generation {
      match e.kind {
        case Connected => assert s.pushed + "" == s.pushed;
        case Closed =>
          assert s.pushed + "" == s.pushed;
          DropInv(t);
        case Data(bytes) => PushInv(Next(s, Handle), t, bytes);
      }
    }
  }

  lemma BytesInOneMore(events: seq<Event>, e: Event, generation: nat)
    ensures BytesIn(events + [e], generation) ==
            BytesIn(events, generation) + if e.generation == generation then BytesOf(e) else ""
  {
    BytesInAppend(events, [e], generation);
    assert [e][1..] == [];
    assert BytesOf(e) + "" == BytesOf(e);
  }

  lemma PostConserved(s: State, e: Event)
    requires Conserved(s)
    ensures Conserved(s.(inbox := s.inbox + [e],
                         delivered := s.delivered[e.generation := Delivered(s, e.generation) + BytesOf(e)]))
  {
    BytesInOneMore(s.inbox, e, s.generation);
    Associative(s.pushed + BytesIn(s.batch, s.generation), BytesIn(s.inbox, s.generation), BytesOf(e));
  }

  lemma PostRecorded(s: State, e: Event)
    requires Recorded(s)
    ensures Recorded(s.(inbox := s.inbox + [e],
                        delivered := s.delivered[e.generation := Delivered(s, e.generation) + BytesOf(e)]))
  {
  }

  lemma PostInv(s: State, e: Event)
    requires Inv(s) && Enabled(s, Post(e))
    ensures Inv(Next(s, Post(e)))
  {
    PostConserved(s, e);
    PostRecorded(s, e);
  }

  lemma ConnectInv(s: State, ok: bool)
    requires Inv(s) && Enabled(s, Connect(ok))
    ensures Inv(Next(s, Connect(ok)))
  {
    FreshGeneration(s, if ok then Connecting else Down);
  }

  lemma StepInv(s: State, a: Action)
    requires Inv(s) && Enabled(s, a)
    ensures Inv(Next(s, a))
  {
    match a {
      case Post(e) => PostInv(s, e);
      case Take =>
        var rest := BytesIn(s.inbox, s.generation);
        assert s.pushed + "" + rest == s.pushed + rest + "";
      case Handle => HandleInv(s);
      case Connect(ok) => ConnectInv(s, ok);
      case Relink => DropInv(s);
    }
  }

  // ---- Runs ----

  predicate Possible(s: State, actions: seq<Action>)
    decreases |actions|
  {
    actions == [] || (Enabled(s, actions[0]) && Possible(Next(s, actions[0]), actions[1..]))
  }

  function Run(s: State, actions: seq<Action>): State
    requires Possible(s, actions)
    decreases |actions|
  {
    if actions == [] then s else Run(Next(s, actions[0]), actions[1..])
  }

  lemma {:induction false} RunInv(s: State, actions: seq<Action>)
    requires Inv(s) && Possible(s, actions)
    ensures Inv(Run(s, actions))
    decreases |actions|
  {
    if actions != [] {
      StepInv(s, actions[0]);
      RunInv(Next(s, actions[0]), actions[1..]);
    }
  }

  /**
   * In every run, however late callbacks of replaced connections interleave: the bytes in the framer are the first ones
   * the current connection delivered, and the agent has been given exactly the messages they make up; and so it was for
   * every connection before, the one that failed in the middle of a chunk included.
   */
  lemma OnlyCurrentBytes(actions: seq<Action>)
    requires Possible(START, actions)
    ensures var s := Run(START, actions);
            && s.pushed <= Delivered(s, s.generation)
            && Frames(s.pushed) == Stream(s.messages, false, s.buffer)
            && forall g :: g in s.past ==> Honest(s.past[g], Delivered(s, g))
  {
    StartInv();
    RunInv(START, actions);
    PushedIsFirst(Run(START, actions));
  }

  // ---- The network thread's side as an object ----

  lemma HandleKeepsBatch(s: State, e: Event)
    ensures HandleEvent(s, e).batch == s.batch
  {
  }

  /** Handling everything taken from the inbox. */
  function HandleAll(s: State): State
    decreases |s.batch|
  {
    if s.batch == [] then s
    else
      HandleKeepsBatch(s.(batch := s.batch[1..]), s.batch[0]);
      HandleAll(Next(s, Handle))
  }

  class Signalling {
    var generation: nat
    var status: Status
    var inbox: seq<Event>
    const framer: StreamFramer
    ghost var batch: seq<Event>
    ghost var pushed: string
    ghost var messages: seq<string>
    ghost var past: map<nat, Episode>
    ghost var listeners: set<nat>
    ghost var delivered: map<nat, string>
    ghost var ups: nat
    ghost var downs: nat

    ghost function Abs(): State
      reads this, framer
    {
      State(generation, status, inbox, batch, framer.buffer, pushed, messages, past, listeners, delivered, ups, downs)
    }

    ghost predicate Valid()
      reads this, framer
    {
      !framer.failed && Inv(Abs())
    }

    constructor ()
      ensures Valid() && fresh(framer) && Abs() == START
    {
      generation, status, inbox := 0, Down, [];
      framer := new StreamFramer();
      batch, pushed, messages, past, listeners, delivered, ups, downs := [], "", [], map[], {}, map[], 0, 0;
      new;
      StartInv();
    }

    method Renew(next: Status)
      modifies this, framer
      ensures !framer.failed && Abs() == NewGeneration(old(Abs()), next)
    {
      past := past[generation := Episode(pushed, messages)];
      generation := generation + 1;
      framer.Reset();
      pushed, messages, status := "", [], next;
    }

    method ConnectLink(ok: bool)
      requires Valid() && status == Down && batch == []
      modifies this, framer
      ensures Valid() && Abs() == Next(old(Abs()), Connect(ok))
    {
      StepInv(Abs(), Connect(ok));
      Renew(if ok then Connecting else Down);
      listeners := listeners + {generation};
    }

    method DropLink()
      modifies this, framer
      ensures !framer.failed && Abs() == Drop(old(Abs()))
    {
      Renew(Down);
      downs := downs + 1;
    }

    /** A connection that looks fine is given up. */
    method GiveUpLink()
      requires Valid() && status == Up && batch == []
      modifies this, framer
      ensures Valid() && Abs() == Next(old(Abs()), Relink)
    {
      StepInv(Abs(), Relink);
      DropLink();
    }

    method PostEvent(e: Event)
      requires Valid() && e.generation in listeners
      modifies this
      ensures Valid() && Abs() == Next(old(Abs()), Post(e))
    {
      StepInv(Abs(), Post(e));
      inbox := inbox + [e];
      delivered := delivered[e.generation := Delivered(Abs(), e.generation) + BytesOf(e)];
    }

    method PushBytes(bytes: string)
      requires !framer.failed
      modifies this, framer
      ensures !framer.failed && Abs() == Push(old(Abs()), bytes)
    {
      var complete := framer.Feed(bytes);
      pushed, messages := pushed + bytes, messages + complete;
      if framer.failed {
        DropLink();
      }
    }

    method HandleOne(e: Event)
      requires !framer.failed
      modifies this, framer
      ensures !framer.failed && Abs() == HandleEvent(old(Abs()), e)
    {
      if e.generation != generation {
        return;
      }
      match e.kind {
        case Connected =>
          status := Up;
          ups := ups + 1;
        case Data(bytes) => PushBytes(bytes);
        case Closed => DropLink();
      }
    }

    /** Takes everything reported so far and handles it in order. */
    method DrainLink()
      requires Valid() && batch == []
      modifies this, framer
      ensures Valid() && batch == [] && Abs() == HandleAll(Next(old(Abs()), Take))
    {
      StepInv(Abs(), Take);
      var events := inbox;
      batch, inbox := inbox, [];
      ghost var s := Abs();
      var i := 0;
      while i < |events|
        invariant 0 <= i <= |events| && batch == events[i..]
        invariant Valid() && HandleAll(Abs()) == HandleAll(s)
      {
        StepInv(Abs(), Handle);
        batch := batch[1..];
        HandleKeepsBatch(Abs(), events[i]);
        HandleOne(events[i]);
        i := i + 1;
      }
    }
  }
}

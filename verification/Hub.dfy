/**
 The hub: one connection per remote key, opened by an incoming signal message or by the user, and
 closed by dropping the sender that the map holds for it.
 */
module Hub {
  import opened Core
  import opened Channel
  import Webrtc

  type Key = seq<byte>
  type Bytes = seq<byte>

  /** A connection: whether anyone still holds it, and its command channel. */
  datatype Conn = Conn(key: Key, isPolite: bool, strong: bool, cell: Cell<Bytes>)

  /** The command loop waits for a command, or inside `hub_map_assert` for the signal server. */
  datatype Pc = Idle | Asserting(key: Key, msg: Option<Bytes>) | Stopped

  /** Every connection ever made, and the map from keys to connections. */
  datatype State = State(me: Key, conns: seq<Conn>, map_: map<Key, nat>, pc: Pc)

  datatype Event =
    | CliRecv(key: Key, msg: Bytes, room: bool)
    | Connect(key: Key)
    | Asserted(ok: bool)
    | Disconnect(key: Key)
    | Close
    | LastRefDropped(i: nat)   // nobody holds connection i any more
    | ConnDropped(i: nat)      // and its own sender is dropped
    | SendFailed(i: nat)       // somebody's send failed or timed out
    | TaskEnded(i: nat)        // its receiver is gone

  function Shut(c: Conn): Conn {
    c.(cell := TakeAndClose(c.cell))
  }

  /** Entry k of the map is for connection i. */
  predicate Entry(s: State, k: Key, i: nat) {
    k in s.map_ && s.map_[k] == i
  }

  predicate Mapped(s: State, i: nat)
    requires i < |s.conns|
  {
    Entry(s, s.conns[i].key, i)
  }

  /** Entries whose connection is gone are removed, and that drops their senders. */
  function Prune(s: State): State
    requires MapOk(s)
  {
    s.(map_ := map k | k in s.map_ && s.conns[s.map_[k]].strong :: s.map_[k],
       conns := seq(|s.conns|, i requires 0 <= i < |s.conns| =>
         if Mapped(s, i) && !s.conns[i].strong then Shut(s.conns[i]) else s.conns[i]))
  }

  /** The same for the entries already visited. */
  function PruneOnly(s: State, done: set<Key>): State
    requires MapOk(s)
  {
    s.(map_ := map k | k in s.map_ && (k !in done || s.conns[s.map_[k]].strong) :: s.map_[k],
       conns := seq(|s.conns|, i requires 0 <= i < |s.conns| =>
         if Mapped(s, i) && s.conns[i].key in done && !s.conns[i].strong then Shut(s.conns[i]) else s.conns[i]))
  }

  /** Visiting one more entry. */
  lemma PruneOne(s: State, done: set<Key>, k: Key)
    requires MapOk(s) && k in s.map_ && k !in done
    ensures
      var t, i := PruneOnly(s, done), s.map_[k];
      && k in t.map_ && t.map_[k] == i && t.conns[i] == s.conns[i]
      && PruneOnly(s, done + {k}) ==
         if s.conns[i].strong then t else t.(conns := t.conns[i := Shut(s.conns[i])], map_ := t.map_ - {k})
  {
    var t, u, i := PruneOnly(s, done), PruneOnly(s, done + {k}), s.map_[k];
    assert u.conns == if s.conns[i].strong then t.conns else t.conns[i := Shut(s.conns[i])];
    assert u.map_ == if s.conns[i].strong then t.map_ else t.map_ - {k};
  }

  lemma PruneEnds(s: State)
    requires MapOk(s)
    ensures PruneOnly(s, {}) == s && PruneOnly(s, s.map_.Keys) == Prune(s)
  {
    assert PruneOnly(s, {}).conns == s.conns && PruneOnly(s, {}).map_ == s.map_;
    assert PruneOnly(s, s.map_.Keys).conns == Prune(s).conns && PruneOnly(s, s.map_.Keys).map_ == Prune(s).map_;
  }

  /** Removing an entry drops its sender. */
  function Remove(s: State, key: Key): State
    requires MapOk(s)
  {
    if key in s.map_
    then s.(map_ := s.map_ - {key}, conns := s.conns[s.map_[key] := Shut(s.conns[s.map_[key]])])
    else s
  }

  function SendTo(s: State, i: nat, msg: Bytes, room: bool): State
    requires i < |s.conns|
  {
    s.(conns := s.conns[i := s.conns[i].(cell := AfterSend(s.conns[i].cell, msg, room))])
  }

  /** Find the connection for a key, or begin to make one. */
  function Assert(s: State, key: Key, msg: Option<Bytes>, room: bool): State
    requires MapOk(s)
  {
    var t := Prune(s);
    if key !in t.map_ then t.(pc := Asserting(key, msg))
    else if msg.Some? then SendTo(t, t.map_[key], msg.value, room) else t
  }

  function NewConn(me: Key, key: Key, msg: Option<Bytes>): Conn {
    Conn(key, Webrtc.Polite(me, key), true,
         if msg.Some? then AfterSend(NewCell(), msg.value, true) else NewCell())
  }

  /** The signal server agreed: make the connection and enter it. */
  function Insert(s: State): State
    requires s.pc.Asserting?
  {
    State(s.me, s.conns + [NewConn(s.me, s.pc.key, s.pc.msg)], s.map_[s.pc.key := |s.conns|], Idle)
  }

  /** The loop ends or is aborted: the map and all its senders are dropped. */
  function Stop(s: State): State
    requires MapOk(s)
  {
    State(s.me, seq(|s.conns|, i requires 0 <= i < |s.conns| => if Mapped(s, i) then Shut(s.conns[i]) else s.conns[i]),
          map[], Stopped)
  }

  predicate Can(s: State, e: Event) {
    match e
    case CliRecv(_, _, _) => s.pc == Idle
    case Connect(_) => s.pc == Idle
    case Asserted(_) => s.pc.Asserting?
    case Disconnect(_) => s.pc == Idle
    case Close => true
    case LastRefDropped(i) => i < |s.conns|
    case ConnDropped(i) => i < |s.conns| && !s.conns[i].strong
    case SendFailed(i) => i < |s.conns|
    case TaskEnded(i) => i < |s.conns|
  }

  function Apply(s: State, e: Event): State
    requires MapOk(s) && Can(s, e)
  {
    match e
    case CliRecv(key, msg, room) => if key == s.me then s else Assert(s, key, Some(msg), room)
    case Connect(key) => if key == s.me then s else Assert(s, key, None, true)
    case Asserted(ok) => if ok then Insert(s) else s.(pc := Idle)
    case Disconnect(key) => Remove(s, key)
    case Close => Stop(s)
    case LastRefDropped(i) => s.(conns := s.conns[i := s.conns[i].(strong := false)])
    case ConnDropped(i) => s.(conns := s.conns[i := Shut(s.conns[i])])
    case SendFailed(i) => s.(conns := s.conns[i := Shut(s.conns[i])])
    case TaskEnded(i) => s.(conns := s.conns[i := s.conns[i].(cell := s.conns[i].cell.(closed := true))])
  }

  // ----- what every step keeps

  /** Entries point to connections of their key. */
  predicate MapOk(s: State) {
    forall k :: k in s.map_ ==> s.map_[k] < |s.conns| && s.conns[s.map_[k]].key == k
  }

  predicate ConnOk(s: State, i: nat)
    requires i < |s.conns|
  {
    && (Open(s.conns[i].cell) ==> Mapped(s, i))
    && s.conns[i].key != s.me
    && s.conns[i].isPolite == Webrtc.Polite(s.me, s.conns[i].key)
  }

  predicate Inv(s: State) {
    && MapOk(s)
    && (forall i :: 0 <= i < |s.conns| ==> ConnOk(s, i))
    && (s.pc.Asserting? ==> s.pc.key !in s.map_ && s.pc.key != s.me)
    && (s.pc.Stopped? ==> s.map_ == map[])
  }

  function New(me: Key): State {
    State(me, [], map[], Idle)
  }

  lemma PruneKeeps(s: State)
    requires Inv(s)
    ensures Inv(Prune(s)) && forall k :: k in Prune(s).map_ ==> Prune(s).conns[Prune(s).map_[k]].strong
  {
    var t := Prune(s);
    forall i | 0 <= i < |t.conns|
      ensures ConnOk(t, i)
    {
      assert ConnOk(s, i);
    }
  }

  /** Changing one connection without opening it keeps the rest. */
  lemma UpdateKeeps(s: State, i: nat, c: Conn)
    requires Inv(s) && i < |s.conns|
    requires c.key == s.conns[i].key && c.isPolite == s.conns[i].isPolite && (Open(c.cell) ==> Open(s.conns[i].cell))
    ensures Inv(s.(conns := s.conns[i := c]))
  {
    var t := s.(conns := s.conns[i := c]);
    forall j | 0 <= j < |t.conns|
      ensures ConnOk(t, j)
    {
      assert ConnOk(s, j);
    }
  }

  lemma AssertKeeps(s: State, key: Key, msg: Option<Bytes>, room: bool)
    requires Inv(s) && s.pc == Idle && key != s.me
    ensures Inv(Assert(s, key, msg, room))
  {
    PruneKeeps(s);
    var t := Prune(s);
    if key !in t.map_ {
      forall i | 0 <= i < |t.conns|
        ensures ConnOk(t.(pc := Asserting(key, msg)), i)
      {
        assert ConnOk(t, i);
      }
    } else if msg.Some? {
      var c := t.conns[t.map_[key]];
      UpdateKeeps(t, t.map_[key], c.(cell := AfterSend(c.cell, msg.value, room)));
    }
  }

  lemma InsertKeeps(s: State)
    requires Inv(s) && s.pc.Asserting?
    ensures Inv(Insert(s))
  {
    var t := Insert(s);
    forall i | 0 <= i < |t.conns|
      ensures ConnOk(t, i)
    {
      if i < |s.conns| {
        assert ConnOk(s, i);
      }
    }
  }

  lemma RemoveKeeps(s: State, key: Key)
    requires Inv(s)
    ensures Inv(Remove(s, key))
  {
    var t := Remove(s, key);
    forall i | 0 <= i < |t.conns|
      ensures ConnOk(t, i)
    {
      assert ConnOk(s, i);
    }
  }

  lemma StopKeeps(s: State)
    requires Inv(s)
    ensures Inv(Stop(s))
  {
    var t := Stop(s);
    forall i | 0 <= i < |t.conns|
      ensures ConnOk(t, i)
    {
      assert ConnOk(s, i);
    }
  }

  lemma StepKeeps(s: State, e: Event)
    requires Inv(s) && Can(s, e)
    ensures Inv(Apply(s, e)) && Apply(s, e).me == s.me
  {
    match e
    case CliRecv(key, msg, room) => if key != s.me { AssertKeeps(s, key, Some(msg), room); }
    case Connect(key) => if key != s.me { AssertKeeps(s, key, None, true); }
    case Asserted(ok) =>
      if ok {
        InsertKeeps(s);
      } else {
        assert forall i :: 0 <= i < |s.conns| && ConnOk(s, i) ==> ConnOk(s.(pc := Idle), i);
      }
    case Disconnect(key) => RemoveKeeps(s, key);
    case Close => StopKeeps(s);
    case LastRefDropped(i) => UpdateKeeps(s, i, s.conns[i].(strong := false));
    case ConnDropped(i) => UpdateKeeps(s, i, Shut(s.conns[i]));
    case SendFailed(i) => UpdateKeeps(s, i, Shut(s.conns[i]));
    case TaskEnded(i) => UpdateKeeps(s, i, s.conns[i].(cell := s.conns[i].cell.(closed := true)));
  }

  ghost predicate Run(me: Key, t: seq<State>, events: seq<Event>) {
    && |t| == |events| + 1 && t[0] == New(me)
    && forall n :: 0 <= n < |events| ==> MapOk(t[n]) && Can(t[n], events[n]) && t[n + 1] == Apply(t[n], events[n])
  }

  lemma {:induction false} RunKeeps(me: Key, t: seq<State>, events: seq<Event>, n: nat)
    requires Run(me, t, events) && n < |t|
    ensures Inv(t[n]) && t[n].me == me
  {
    if n > 0 {
      RunKeeps(me, t, events, n - 1);
      StepKeeps(t[n - 1], events[n - 1]);
    }
  }

  /**
   After any commands, stale Disconnects included, and whenever connections are dropped: a
   connection whose command channel is open is the one in the map for its key, so there is at most
   one per key, none to oneself, and none at all once the hub has stopped.
   */
  lemma OneOpenConnection(me: Key, t: seq<State>, events: seq<Event>, n: nat)
    requires Run(me, t, events) && n < |t|
    ensures
      var s := t[n];
      && (forall i :: 0 <= i < |s.conns| && Open(s.conns[i].cell) ==>
            Entry(s, s.conns[i].key, i) && s.conns[i].key != me && s.pc != Stopped)
      && (forall i, j :: 0 <= i < j < |s.conns| && s.conns[i].key == s.conns[j].key ==>
            !(Open(s.conns[i].cell) && Open(s.conns[j].cell)))
  {
    RunKeeps(me, t, events, n);
    var s := t[n];
    forall i | 0 <= i < |s.conns| && Open(s.conns[i].cell)
      ensures Entry(s, s.conns[i].key, i) && s.conns[i].key != me && s.pc != Stopped
    {
      assert ConnOk(s, i);
    }
  }

  /**
   A Disconnect names a key, not a connection: afterwards no connection for that key is open,
   even one made after the connection that asked for it, and all others are as before.
   */
  lemma DisconnectIsByKey(s: State, key: Key, i: nat)
    requires Inv(s) && s.pc == Idle && i < |s.conns|
    ensures
      var t := Apply(s, Disconnect(key));
      && key !in t.map_
      && if s.conns[i].key == key then !Open(t.conns[i].cell) else t.conns[i] == s.conns[i]
  {
    assert ConnOk(s, i);
  }

  // ----- every signal reaches the connection of its sender

  /** A signal goes to the connection that is alive, as its next command, and to no other. */
  lemma SignalReaches(s: State, key: Key, msg: Bytes, room: bool, i: nat, j: nat)
    requires Inv(s) && s.pc == Idle && key != s.me
    requires Entry(s, key, i) && s.conns[i].strong && j < |s.conns|
    ensures
      var t := Apply(s, CliRecv(key, msg, room));
      && |t.conns| == |s.conns| && t.pc == Idle && Entry(t, key, i)
      && t.conns[j].cell.accepted == s.conns[j].cell.accepted +
         if j == i && s.conns[i].cell.some && !s.conns[i].cell.closed && room then [msg] else []
  {
  }

  /** Without one, the signal waits for the connection to be made, and is its first command. */
  lemma FirstSignalWaits(s: State, key: Key, msg: Bytes, room: bool, ok: bool)
    requires Inv(s) && s.pc == Idle && key != s.me
    requires key in s.map_ ==> !s.conns[s.map_[key]].strong
    ensures
      var t := Apply(s, CliRecv(key, msg, room));
      && t.pc == Asserting(key, Some(msg)) && |t.conns| == |s.conns|
      && var u, i := Apply(t, Asserted(ok)), |t.conns|;
         && u.pc == Idle
         && if ok then
              && Entry(u, key, i)
              && u.conns == t.conns + [Conn(key, Webrtc.Less(s.me, key), true, Cell(true, false, [msg]))]
            else u.conns == t.conns && key !in u.map_
  {
    var none: seq<Bytes> := [];
    assert none + [msg] == [msg];
    StepKeeps(s, CliRecv(key, msg, room));
  }

  /** Connecting hands over the connection that is alive, or begins to make one without a command. */
  lemma ConnectFinds(s: State, key: Key, i: nat)
    requires Inv(s) && s.pc == Idle && key != s.me && i < |s.conns|
    ensures
      var t := Apply(s, Connect(key));
      && |t.conns| == |s.conns| && t.conns[i].cell.accepted == s.conns[i].cell.accepted
      && if key in s.map_ && s.conns[s.map_[key]].strong then t.pc == Idle && Entry(t, key, s.map_[key])
         else
           && t.pc == Asserting(key, None)
           && Apply(t, Asserted(true)).conns ==
              t.conns + [Conn(key, Webrtc.Less(s.me, key), true, Cell(true, false, []))]
  {
  }

  /** The last command that asked for a connection. */
  function LastAsk(events: seq<Event>): (r: Option<Event>)
    ensures r.Some? ==> r.value.CliRecv? || r.value.Connect?
  {
    if events == [] then None
    else
      var e := events[|events| - 1];
      if e.CliRecv? || e.Connect? then Some(e) else LastAsk(events[..|events| - 1])
  }

  /** The signal among the last commands, if the last one is a signal. */
  function LastSignal(events: seq<Event>): seq<Bytes> {
    match LastAsk(events)
    case Some(CliRecv(_, msg, _)) => [msg]
    case _ => []
  }

  /** What a signal for it adds to the commands of a connection. */
  function SignalTo(c: Conn, e: Event): seq<Bytes> {
    if e.CliRecv? && e.key == c.key && e.room && c.strong && c.cell.some && !c.cell.closed then [e.msg] else []
  }

  /**
   The signals for connection i: the one it was made for, and then all of its key that arrived
   with room in the channel while it was open and held by somebody.
   */
  function SignalsFor(t: seq<State>, events: seq<Event>, n: nat, i: nat): seq<Bytes>
    requires n <= |events| && |t| == |events| + 1
  {
    if n == 0 then []
    else if i >= |t[n - 1].conns| then if i < |t[n].conns| then LastSignal(events[..n]) else []
    else
      SignalsFor(t, events, n - 1, i) + SignalTo(t[n - 1].conns[i], events[n - 1])
  }

  /** While the signal server is asked, it is about the last command that asked for a connection. */
  lemma {:induction false} AskingForTheLast(me: Key, t: seq<State>, events: seq<Event>, n: nat)
    requires Run(me, t, events) && n < |t| && t[n].pc.Asserting?
    ensures LastAsk(events[..n]).Some? && LastAsk(events[..n]).value.key == t[n].pc.key
    ensures LastSignal(events[..n]) == if t[n].pc.msg.Some? then [t[n].pc.msg.value] else []
  {
    if n > 0 {
      var s, e := t[n - 1], events[n - 1];
      assert MapOk(s) && Can(s, e) && t[n - 1 + 1] == Apply(s, e);
      assert events[..n][..n - 1] == events[..n - 1] && events[..n][n - 1] == e;
      if s.pc.Asserting? {
        AskingForTheLast(me, t, events, n - 1);
        assert !e.CliRecv? && !e.Connect?;
      }
    }
  }

  lemma AssertSends(s: State, key: Key, msg: Option<Bytes>, room: bool, i: nat)
    requires Inv(s) && s.pc == Idle && key != s.me && i < |s.conns|
    ensures
      var t, c := Assert(s, key, msg, room), s.conns[i];
      && |t.conns| == |s.conns| && t.conns[i].key == c.key
      && t.conns[i].cell.accepted ==
         c.cell.accepted + if msg.Some? then SignalTo(c, CliRecv(key, msg.value, room)) else []
  {
    assert ConnOk(s, i);
  }

  lemma OthersSend(s: State, e: Event, i: nat)
    requires Inv(s) && Can(s, e) && !e.CliRecv? && !e.Connect? && i < |s.conns|
    ensures |s.conns| <= |Apply(s, e).conns|
    ensures Apply(s, e).conns[i].key == s.conns[i].key
    ensures Apply(s, e).conns[i].cell.accepted == s.conns[i].cell.accepted
  {
  }

  /** One step adds to a connection's commands the signal for it, if it is one. */
  lemma StepSends(s: State, e: Event, i: nat)
    requires Inv(s) && Can(s, e) && i < |s.conns|
    ensures |s.conns| <= |Apply(s, e).conns| && Apply(s, e).conns[i].key == s.conns[i].key
    ensures Apply(s, e).conns[i].cell.accepted == s.conns[i].cell.accepted + SignalTo(s.conns[i], e)
  {
    if e.CliRecv? {
      if e.key != s.me {
        AssertSends(s, e.key, Some(e.msg), e.room, i);
      } else {
        assert ConnOk(s, i);
      }
    } else if e.Connect? {
      if e.key != s.me {
        AssertSends(s, e.key, None, true, i);
      }
    } else {
      OthersSend(s, e, i);
    }
  }

  lemma StepMakes(s: State, e: Event)
    requires Inv(s) && Can(s, e)
    ensures |Apply(s, e).conns| <= |s.conns| + 1
    ensures |s.conns| < |Apply(s, e).conns| ==>
              && s.pc.Asserting? && e == Asserted(true)
              && Apply(s, e).conns[|s.conns|].cell.accepted == if s.pc.msg.Some? then [s.pc.msg.value] else []
  {
  }

  /** In every run each connection was sent exactly the signals for it, in order. */
  lemma {:induction false} AcceptedIsSignals(me: Key, t: seq<State>, events: seq<Event>, n: nat, i: nat)
    requires Run(me, t, events) && n < |t| && i < |t[n].conns|
    ensures t[n].conns[i].cell.accepted == SignalsFor(t, events, n, i)
  {
    if n > 0 {
      var s, e := t[n - 1], events[n - 1];
      RunKeeps(me, t, events, n - 1);
      assert Can(s, e) && t[n - 1 + 1] == Apply(s, e);
      StepMakes(s, e);
      if i < |s.conns| {
        StepSends(s, e, i);
        AcceptedIsSignals(me, t, events, n - 1, i);
      } else {
        AskingForTheLast(me, t, events, n - 1);
        assert events[..n][..n - 1] == events[..n - 1] && events[..n][n - 1] == e;
      }
    }
  }

  // ----- for instance

  lemma Extend(me: Key, t: seq<State>, events: seq<Event>, e: Event, s: State) returns (u: seq<State>)
    requires Run(me, t, events) && MapOk(t[|t| - 1]) && Can(t[|t| - 1], e) && Apply(t[|t| - 1], e) == s
    ensures Run(me, u, events + [e]) && u == t + [s]
  {
    u := t + [s];
    var all := events + [e];
    forall n | 0 <= n < |all|
      ensures MapOk(u[n]) && Can(u[n], all[n]) && u[n + 1] == Apply(u[n], all[n])
    {
      if n < |events| {
        assert u[n] == t[n] && u[n + 1] == t[n + 1];
      }
    }
  }

  /** A hub that made one connection for a key, and one whose only connection is gone. */
  function Connected(me: Key, key: Key): State {
    State(me, [NewConn(me, key, None)], map[key := 0], Idle)
  }

  function Gone(me: Key, key: Key): State {
    State(me, [Shut(NewConn(me, key, None)).(strong := false)], map[key := 0], Idle)
  }

  lemma ConnectFirst(me: Key, key: Key) returns (t: seq<State>)
    requires me != key
    ensures Run(me, t, [Connect(key)] + [Asserted(true)]) && t[|t| - 1] == Connected(me, key)
  {
    var s := State(me, [], map[], Asserting(key, None));
    assert Prune(New(me)) == New(me);
    t := Extend(me, [New(me)], [], Connect(key), s);
    assert [] + [Connect(key)] == [Connect(key)];
    t := Extend(me, t, [Connect(key)], Asserted(true), Connected(me, key));
  }

  lemma DropFirst(me: Key, key: Key) returns (t: seq<State>)
    requires me != key
    ensures Run(me, t, [Connect(key)] + [Asserted(true)] + [LastRefDropped(0)] + [ConnDropped(0)])
    ensures t[|t| - 1] == Gone(me, key)
  {
    t := ConnectFirst(me, key);
    var s := Connected(me, key);
    var dropped := State(me, [s.conns[0].(strong := false)], s.map_, Idle);
    t := Extend(me, t, [Connect(key)] + [Asserted(true)], LastRefDropped(0), dropped);
    t := Extend(me, t, [Connect(key)] + [Asserted(true)] + [LastRefDropped(0)], ConnDropped(0), Gone(me, key));
  }

  lemma ReconnectFrom(me: Key, key: Key)
    requires me != key
    ensures
      var s1 := State(me, Gone(me, key).conns, map[], Asserting(key, None));
      var s2 := State(me, Gone(me, key).conns + [NewConn(me, key, None)], map[key := 1], Idle);
      && Apply(Gone(me, key), Connect(key)) == s1 && Apply(s1, Asserted(true)) == s2
      && MapOk(s2) && Apply(s2, Disconnect(key)).conns == Gone(me, key).conns + [Shut(NewConn(me, key, None))]
  {
    var s := Gone(me, key);
    assert Prune(s).conns == s.conns && Prune(s).map_ == map[];
  }

  /**
   A connection is dropped, its key is connected again, and then the Disconnect that the drop had
   sent arrives: it shuts the newer connection, which was open and in use.
   */
  lemma StaleDisconnect(me: Key, key: Key) returns (t: seq<State>, events: seq<Event>)
    requires me != key
    ensures Run(me, t, events) && |events| == 7
    ensures events[2] == LastRefDropped(0) && events[3] == ConnDropped(0) && events[6] == Disconnect(key)
    ensures |t[6].conns| == 2 == |t[7].conns|
    ensures t[6].conns[1].strong && Open(t[6].conns[1].cell) && !Open(t[7].conns[1].cell)
  {
    t := DropFirst(me, key);
    events := [Connect(key)] + [Asserted(true)] + [LastRefDropped(0)] + [ConnDropped(0)];
    ReconnectFrom(me, key);
    var s1 := State(me, Gone(me, key).conns, map[], Asserting(key, None));
    var s2 := State(me, Gone(me, key).conns + [NewConn(me, key, None)], map[key := 1], Idle);
    t := Extend(me, t, events, Connect(key), s1);
    events := events + [Connect(key)];
    t := Extend(me, t, events, Asserted(true), s2);
    events := events + [Asserted(true)];
    t := Extend(me, t, events, Disconnect(key), Apply(s2, Disconnect(key)));
    events := events + [Disconnect(key)];
  }

  // ----- two hubs

  /** The connections two hubs hold for each other take opposite roles in the negotiation. */
  lemma OppositeRoles(a: State, b: State, i: nat, j: nat)
    requires Inv(a) && Inv(b) && i < |a.conns| && j < |b.conns|
    requires a.conns[i].key == b.me && b.conns[j].key == a.me
    ensures a.conns[i].isPolite != b.conns[j].isPolite
  {
    assert ConnOk(a, i) && ConnOk(b, j);
    Webrtc.ExactlyOnePolite(a.me, b.me);
  }

  // ----- the command loop

  class HubTask {
    const me: Key
    var conns: seq<Conn>
    var map_: map<Key, nat>
    var pc: Pc

    ghost function Model(): State
      reads this
    {
      State(me, conns, map_, pc)
    }

    constructor (me: Key)
      ensures Model() == New(me)
    {
      this.me := me;
      conns, map_, pc := [], map[], Idle;
    }

    /** The map has a connection for the key that somebody holds. */
    ghost predicate HasLive(key: Key)
      reads this
    {
      key in map_ && map_[key] < |conns| && conns[map_[key]].strong
    }

    /** One entry: kept if its connection can still be upgraded. */
    method RetainOne(k: Key, ghost s: State, ghost done: set<Key>)
      requires MapOk(s) && Model() == PruneOnly(s, done) && k in s.map_ && k !in done
      modifies this
      ensures Model() == PruneOnly(s, done + {k})
    {
      PruneOne(s, done, k);
      var i := map_[k];
      if !conns[i].strong {
        conns, map_ := conns[i := Shut(conns[i])], map_ - {k};
      }
    }

    /** The `retain` loop of `hub_map_assert`, in any order of entries. */
    method Retain()
      requires MapOk(Model())
      modifies this
      ensures Model() == Prune(old(Model()))
    {
      ghost var s := Model();
      ghost var done: set<Key> := {};
      var todo := map_.Keys;
      PruneEnds(s);
      while todo != {}
        invariant todo <= s.map_.Keys && done == s.map_.Keys - todo
        invariant Model() == PruneOnly(s, done)
        decreases |todo|
      {
        var k :| k in todo;
        RetainOne(k, s, done);
        todo, done := todo - {k}, done + {k};
      }
      assert done == s.map_.Keys;
    }

    method HubMapAssert(key: Key, msg: Option<Bytes>, room: bool)
      requires Inv(Model()) && pc == Idle
      modifies this
      ensures Model() == Assert(old(Model()), key, msg, room)
      ensures old(HasLive(key)) && msg.Some? && room && Open(old(conns[map_[key]].cell)) ==>
                && pc == Idle && Entry(Model(), key, old(map_[key]))
                && conns[old(map_[key])].cell.accepted == old(conns[map_[key]].cell.accepted) + [msg.value]
      ensures !old(HasLive(key)) ==> pc == Asserting(key, msg)
    {
      Retain();
      PruneKeeps(old(Model()));
      if key !in map_ {
        pc := Asserting(key, msg);
      } else if msg.Some? {
        var i := map_[key];
        conns := conns[i := conns[i].(cell := AfterSend(conns[i].cell, msg.value, room))];
      }
    }

    method OnCliRecv(key: Key, msg: Bytes, room: bool)
      requires Inv(Model()) && pc == Idle
      modifies this
      ensures Model() == Apply(old(Model()), CliRecv(key, msg, room))
      ensures key != me && old(HasLive(key)) && room && Open(old(conns[map_[key]].cell)) ==>
                conns[old(map_[key])].cell.accepted == old(conns[map_[key]].cell.accepted) + [msg]
    {
      if key == me {
        return;
      }
      HubMapAssert(key, Some(msg), room);
    }

    method OnConnect(key: Key) returns (refused: bool)
      requires Inv(Model()) && pc == Idle
      modifies this
      ensures refused <==> key == me
      ensures Model() == Apply(old(Model()), Connect(key))
    {
      if key == me {
        return true;
      }
      HubMapAssert(key, None, true);
      refused := false;
    }

    method OnAsserted(ok: bool)
      requires Inv(Model()) && pc.Asserting?
      modifies this
      ensures Model() == Apply(old(Model()), Asserted(ok))
    {
      if ok {
        conns, map_ := conns + [NewConn(me, pc.key, pc.msg)], map_[pc.key := |conns|];
      }
      pc := Idle;
    }

    method OnDisconnect(key: Key)
      requires Inv(Model()) && pc == Idle
      modifies this
      ensures Model() == Apply(old(Model()), Disconnect(key))
    {
      if key in map_ {
        var i := map_[key];
        conns, map_ := conns[i := Shut(conns[i])], map_ - {key};
      }
    }
  }
}

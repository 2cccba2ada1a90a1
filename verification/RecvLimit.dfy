/**
 Any number of connections share one semaphore. Whatever bytes the remotes send, the bytes of
 partly received messages never exceed its capacity.
 */
module RecvLimit {
  import opened Core
  import opened Header
  import opened Encoder
  import opened Decoder
  import opened Framed

  /** The semaphore and the command tasks of all connections ever opened on it. */
  datatype Limit = Limit(capacity: nat, available: nat, conns: seq<Task>)

  datatype Event =
    | Open
    | Chunk(i: nat, bytes: seq<byte>)
    | AwaitPermit(i: nat, id: nat)
    | Serve(i: nat)
    | Permit(i: nat)
    | Close(i: nat)

  function Sum(s: seq<u32>): nat {
    if s == [] then 0 else Sum(s[..|s| - 1]) + s[|s| - 1]
  }

  function PermitOf(t: Task): nat {
    if t.dec.rx.grantPermit.Some? then t.dec.rx.grantPermit.value else 0
  }

  /** Permits in the hands of a connection: with its decoder, or queued for it. */
  function Held(t: Task): nat {
    PermitOf(t) + Sum(t.acquired)
  }

  /** A command loop that ended: decoder and queue are dropped, spawned tasks live on. */
  function Dropped(t: Task): Task {
    Task(INIT_DEC, false, t.waiting, [], t.delivered)
  }

  /** A task after a command, and the permits given back by what the command dropped. */
  datatype Turn = Turn(task: Task, returned: nat)

  function ChunkTurn(t: Task, bytes: seq<byte>): Turn {
    var u := OnChunk(t, bytes).task;
    if !u.running then Turn(Dropped(u), PermitOf(t) + Sum(t.acquired))
    else if Completes(t.dec, bytes) then Turn(u, PermitOf(t))
    else Turn(u, 0)
  }

  /** The chunk is the last of a message, so the decoder drops its permit. */
  predicate Completes(d: Dec, bytes: seq<byte>) {
    var o := Decode(d, bytes);
    o.result.Ok? && o.result.value.Message? && d.rx.state == ReceiveChunked
  }

  function AwaitTurn(t: Task, id: nat): Turn {
    var u := OnAwaitPermit(t, id).task;
    if u.running then Turn(u, 0) else Turn(Dropped(u), PermitOf(t) + Sum(t.acquired))
  }

  /** The command moves the permit into the decoder; on failure it is dropped as well. */
  function PermitTurn(t: Task): Turn
    requires t.acquired != []
  {
    var u := OnRemotePermit(t).task;
    if u.running then Turn(u, 0)
    else Turn(Dropped(u), t.acquired[0] + PermitOf(t) + Sum(t.acquired[1..]))
  }

  predicate Can(s: Limit, e: Event) {
    match e
    case Open => true
    case Chunk(i, _) => i < |s.conns| && s.conns[i].running
    case AwaitPermit(i, _) => i < |s.conns| && s.conns[i].running
    case Serve(i) => i < |s.conns| && s.conns[i].waiting != [] && s.conns[i].waiting[0] <= s.available
    case Permit(i) => i < |s.conns| && s.conns[i].running && s.conns[i].acquired != []
    case Close(i) => i < |s.conns| && s.conns[i].running
  }

  function With(s: Limit, i: nat, turn: Turn): Limit
    requires i < |s.conns|
  {
    s.(available := s.available + turn.returned, conns := s.conns[i := turn.task])
  }

  function Apply(s: Limit, e: Event): Limit
    requires Can(s, e)
  {
    match e
    case Open => s.(conns := s.conns + [INIT_TASK])
    case Chunk(i, bytes) => With(s, i, ChunkTurn(s.conns[i], bytes))
    case AwaitPermit(i, id) => With(s, i, AwaitTurn(s.conns[i], id))
    case Permit(i) => With(s, i, PermitTurn(s.conns[i]))
    case Close(i) => With(s, i, Turn(Dropped(s.conns[i]), PermitOf(s.conns[i]) + Sum(s.conns[i].acquired)))
    case Serve(i) =>
      var t := s.conns[i];
      var n := t.waiting[0];
      // a task that cannot queue its permit any more drops it at once
      if t.running then With(s.(available := s.available - n), i, Turn(OnAcquire(t), 0))
      else With(s.(available := s.available - n), i, Turn(t.(waiting := t.waiting[1..]), n))
  }

  /** What every connection keeps: permits cover what is collected and what is reserved for it. */
  predicate TaskOk(t: Task) {
    var rx := t.dec.rx;
    && |rx.incoming| <= Reserved(t) <= PermitOf(t)
    && (rx.state == ReceiveChunked ==> |rx.incoming| < rx.wantSize || rx.wantSize == 0)
    && (rx.grantPermit.Some? <==> rx.state == ReceiveChunked)
    && (t.running ==> !t.dec.didError)
    && (t.running ==> (if rx.state.RemoteAwaitingPermit? then t.waiting + t.acquired == [rx.state.len]
                       else t.waiting == [] && t.acquired == []))
    && (!t.running ==> t.acquired == [] && t.dec == INIT_DEC)
  }

  /** The bytes the decoder reserves for the message it is collecting. */
  function Reserved(t: Task): nat {
    if t.dec.rx.state == ReceiveChunked then t.dec.rx.wantSize else 0
  }

  function TotalHeld(conns: seq<Task>): nat {
    if conns == [] then 0 else TotalHeld(conns[..|conns| - 1]) + Held(conns[|conns| - 1])
  }

  function TotalCollected(conns: seq<Task>): nat {
    if conns == [] then 0
    else TotalCollected(conns[..|conns| - 1]) + |conns[|conns| - 1].dec.rx.incoming|
  }

  function TotalReserved(conns: seq<Task>): nat {
    if conns == [] then 0 else TotalReserved(conns[..|conns| - 1]) + Reserved(conns[|conns| - 1])
  }

  predicate Conserved(s: Limit) {
    && s.available + TotalHeld(s.conns) == s.capacity
    && forall i :: 0 <= i < |s.conns| ==> TaskOk(s.conns[i])
  }

  lemma {:induction false} TotalAfterUpdate(conns: seq<Task>, i: nat, t: Task)
    requires i < |conns|
    ensures TotalHeld(conns[i := t]) + Held(conns[i]) == TotalHeld(conns) + Held(t)
  {
    var n := |conns| - 1;
    if i == n {
      assert conns[i := t][..n] == conns[..n];
    } else {
      TotalAfterUpdate(conns[..n], i, t);
      assert conns[i := t][..n] == conns[..n][i := t];
    }
  }

  lemma {:induction false} SumFirst(s: seq<u32>)
    requires s != []
    ensures Sum(s) == s[0] + Sum(s[1..])
  {
    var n := |s| - 1;
    if n > 0 {
      SumFirst(s[..n]);
      assert s[..n][1..] == s[1..][..n - 1];
    } else {
      assert s[1..] == [] && s[..0] == [];
    }
  }

  lemma SumSnoc(s: seq<u32>, x: u32)
    ensures Sum(s + [x]) == Sum(s) + x
  {
    assert (s + [x])[..|s|] == s;
  }

  /** A command keeps the connection's promise and loses no permit. */
  lemma ChunkKeeps(t: Task, bytes: seq<byte>)
    requires TaskOk(t) && t.running
    ensures var u := ChunkTurn(t, bytes); TaskOk(u.task) && Held(u.task) + u.returned == Held(t)
  {
  }

  lemma AwaitKeeps(t: Task, id: nat)
    requires TaskOk(t) && t.running
    ensures var u := AwaitTurn(t, id); TaskOk(u.task) && Held(u.task) + u.returned == Held(t)
  {
  }

  lemma PermitKeeps(t: Task)
    requires TaskOk(t) && t.running && t.acquired != []
    ensures var u := PermitTurn(t); TaskOk(u.task) && Held(u.task) + u.returned == Held(t)
  {
    SumFirst(t.acquired);
    assert (t.waiting + t.acquired)[|t.waiting|] == t.acquired[0];
  }

  lemma ServeKeeps(t: Task)
    requires TaskOk(t) && t.waiting != []
    ensures t.running ==> TaskOk(OnAcquire(t)) && Held(OnAcquire(t)) == Held(t) + t.waiting[0]
    ensures !t.running ==> TaskOk(t.(waiting := t.waiting[1..]))
  {
    SumSnoc(t.acquired, t.waiting[0]);
    assert t.waiting + t.acquired == [t.waiting[0]] + (t.waiting[1..] + t.acquired);
  }

  /** Replacing one connection conserves the total if the difference went to the semaphore. */
  lemma ReplaceConserves(s: Limit, i: nat, t: Task, available: nat)
    requires Conserved(s) && i < |s.conns| && TaskOk(t)
    requires available + Held(t) == s.available + Held(s.conns[i])
    ensures Conserved(s.(available := available, conns := s.conns[i := t]))
  {
    TotalAfterUpdate(s.conns, i, t);
  }

  lemma TurnConserves(s: Limit, i: nat, turn: Turn)
    requires Conserved(s) && i < |s.conns| && TaskOk(turn.task)
    requires Held(turn.task) + turn.returned == Held(s.conns[i])
    ensures Conserved(With(s, i, turn))
  {
    ReplaceConserves(s, i, turn.task, s.available + turn.returned);
  }

  lemma ServeConserves(s: Limit, i: nat)
    requires Conserved(s) && Can(s, Serve(i))
    ensures Conserved(Apply(s, Serve(i)))
  {
    ServeKeeps(s.conns[i]);
    ReplaceConserves(s, i, Apply(s, Serve(i)).conns[i], Apply(s, Serve(i)).available);
  }

  lemma OpenConserves(s: Limit)
    requires Conserved(s)
    ensures Conserved(Apply(s, Open))
  {
    assert (s.conns + [INIT_TASK])[..|s.conns|] == s.conns;
  }

  lemma ChunkConserves(s: Limit, i: nat, bytes: seq<byte>)
    requires Conserved(s) && Can(s, Chunk(i, bytes))
    ensures Conserved(Apply(s, Chunk(i, bytes)))
  {
    ChunkKeeps(s.conns[i], bytes);
    TurnConserves(s, i, ChunkTurn(s.conns[i], bytes));
  }

  lemma AwaitConserves(s: Limit, i: nat, id: nat)
    requires Conserved(s) && Can(s, AwaitPermit(i, id))
    ensures Conserved(Apply(s, AwaitPermit(i, id)))
  {
    AwaitKeeps(s.conns[i], id);
    TurnConserves(s, i, AwaitTurn(s.conns[i], id));
  }

  lemma PermitConserves(s: Limit, i: nat)
    requires Conserved(s) && Can(s, Permit(i))
    ensures Conserved(Apply(s, Permit(i)))
  {
    PermitKeeps(s.conns[i]);
    TurnConserves(s, i, PermitTurn(s.conns[i]));
  }

  lemma CloseConserves(s: Limit, i: nat)
    requires Conserved(s) && Can(s, Close(i))
    ensures Conserved(Apply(s, Close(i)))
  {
    TurnConserves(s, i, Turn(Dropped(s.conns[i]), PermitOf(s.conns[i]) + Sum(s.conns[i].acquired)));
  }

  lemma StepConserves(s: Limit, e: Event)
    requires Conserved(s) && Can(s, e)
    ensures Conserved(Apply(s, e)) && Apply(s, e).capacity == s.capacity
  {
    match e
    case Open => OpenConserves(s);
    case Chunk(i, bytes) => ChunkConserves(s, i, bytes);
    case AwaitPermit(i, id) => AwaitConserves(s, i, id);
    case Permit(i) => PermitConserves(s, i);
    case Serve(i) => ServeConserves(s, i);
    case Close(i) => CloseConserves(s, i);
  }

  lemma {:induction false} CollectedWithinHeld(conns: seq<Task>)
    requires forall i :: 0 <= i < |conns| ==> TaskOk(conns[i])
    ensures TotalCollected(conns) <= TotalReserved(conns) <= TotalHeld(conns)
  {
    if conns != [] {
      CollectedWithinHeld(conns[..|conns| - 1]);
    }
  }

  function Run(capacity: nat, events: seq<Event>): Option<Limit> {
    if events == [] then Some(Limit(capacity, capacity, []))
    else
      var r := Run(capacity, events[..|events| - 1]);
      if r.Some? && Can(r.value, events[|events| - 1]) then Some(Apply(r.value, events[|events| - 1])) else None
  }

  /**
   In every run, with arbitrary bytes from every remote, permits are conserved and the bytes
   collected (even the bytes reserved) for unfinished messages fit the semaphore's capacity.
   */
  lemma {:induction false} MemoryIsBounded(capacity: nat, events: seq<Event>)
    requires Run(capacity, events).Some?
    ensures
      var s := Run(capacity, events).value;
      && Conserved(s) && s.capacity == capacity
      && TotalCollected(s.conns) <= TotalReserved(s.conns) <= capacity - s.available
  {
    if events != [] {
      var p := events[..|events| - 1];
      MemoryIsBounded(capacity, p);
      StepConserves(Run(capacity, p).value, events[|events| - 1]);
    }
    CollectedWithinHeld(Run(capacity, events).value.conns);
  }
}

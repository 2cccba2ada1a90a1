/**
 A command channel whose sender can be shut by any of its handles: all clones share one cell that
 holds the sender, and a handle marked close-on-drop empties the cell when it is dropped.
 */
module Channel {
  import opened Core

  /** The shared cell, whether the channel behind it is closed, and all it ever accepted. */
  datatype Cell<T> = Cell(some: bool, closed: bool, accepted: seq<T>)

  function NewCell<T>(): Cell<T> {
    Cell(true, false, [])
  }

  /** A message can still get through. */
  predicate Open<T>(c: Cell<T>) {
    c.some && !c.closed
  }

  function TakeAndClose<T>(c: Cell<T>): Cell<T> {
    if c.some then c.(some := false, closed := true) else c
  }

  /** Dropping a handle. */
  function AfterDrop<T>(c: Cell<T>, closeOnDrop: bool): Cell<T> {
    if closeOnDrop then TakeAndClose(c) else c
  }

  /** Sending a message; `room` is whether the channel takes it, in time for `send`. */
  function AfterSend<T>(c: Cell<T>, t: T, room: bool): Cell<T> {
    if Open(c) && room then c.(accepted := c.accepted + [t]) else TakeAndClose(c)
  }

  class Shared<T> {
    var cell: Cell<T>

    constructor ()
      ensures cell == NewCell()
    {
      cell := NewCell();
    }
  }

  class CloseSend<T> {
    const shared: Shared<T>
    var closeOnDrop: bool

    constructor (shared: Shared<T>)
      ensures this.shared == shared && !closeOnDrop
    {
      this.shared := shared;
      closeOnDrop := false;
    }

    /** A clone shares the cell, and does not inherit the duty to close it. */
    method Clone() returns (c: CloseSend<T>)
      ensures fresh(c) && c.shared == shared && !c.closeOnDrop
    {
      c := new CloseSend(shared);
    }

    method SetCloseOnDrop(on: bool)
      modifies this
      ensures closeOnDrop == on
    {
      closeOnDrop := on;
    }

    method Drop()
      modifies shared
      ensures shared.cell == AfterDrop(old(shared.cell), closeOnDrop)
    {
      if closeOnDrop {
        var some := shared.cell.some;
        if some {
          shared.cell := shared.cell.(some := false, closed := true);
        }
      }
    }

    method SendOrClose(t: T, room: bool) returns (ok: bool)
      modifies shared
      ensures shared.cell == AfterSend(old(shared.cell), t, room)
      ensures ok <==> Open(old(shared.cell)) && room
    {
      if shared.cell.some {
        if !shared.cell.closed && room {
          shared.cell := shared.cell.(accepted := shared.cell.accepted + [t]);
          ok := true;
        } else {
          shared.cell := shared.cell.(closed := true);
          shared.cell := shared.cell.(some := false);
          ok := false;
        }
      } else {
        ok := false;
      }
    }
  }

  // ----- any number of handles, in any order

  /** `handles[i]` is whether handle i closes the channel when dropped; None once it is gone. */
  datatype Handles<T> = Handles(cell: Cell<T>, handles: seq<Option<bool>>)

  datatype Op<T> =
    | Clone(i: nat)
    | SetCloseOnDrop(i: nat, on: bool)
    | Drop(i: nat)
    | Send(i: nat, t: T, room: bool)
    | ReceiverGone

  predicate OpCan<T>(s: Handles<T>, op: Op<T>) {
    op.ReceiverGone? || (op.i < |s.handles| && s.handles[op.i].Some?)
  }

  function OpApply<T>(s: Handles<T>, op: Op<T>): Handles<T>
    requires OpCan(s, op)
  {
    match op
    case Clone(_) => s.(handles := s.handles + [Some(false)])
    case SetCloseOnDrop(i, on) => s.(handles := s.handles[i := Some(on)])
    case Drop(i) => Handles(AfterDrop(s.cell, s.handles[i].value), s.handles[i := None])
    case Send(_, t, room) => s.(cell := AfterSend(s.cell, t, room))
    case ReceiverGone => s.(cell := s.cell.(closed := true))
  }

  /** Either operation that shuts the channel for everybody. */
  predicate Shuts<T>(s: Handles<T>, op: Op<T>)
    requires OpCan(s, op)
  {
    || (op.Drop? && s.handles[op.i].value)
    || (op.Send? && !(Open(s.cell) && op.room))
    || op.ReceiverGone?
  }

  function OpRun<T>(s: Handles<T>, ops: seq<Op<T>>): Option<Handles<T>>
    decreases |ops|
  {
    if ops == [] then Some(s)
    else if OpCan(s, ops[0]) then OpRun(OpApply(s, ops[0]), ops[1..]) else None
  }

  /**
   Once one handle has shut the channel, by being dropped or by a failed send, no handle, old or
   cloned later, gets another message through.
   */
  lemma {:induction false} ShutForAll<T>(s: Handles<T>, op: Op<T>, ops: seq<Op<T>>)
    requires OpCan(s, op) && Shuts(s, op) && (s.cell.some || s.cell.closed)
    requires OpRun(OpApply(s, op), ops).Some?
    ensures
      var s' := OpRun(OpApply(s, op), ops).value;
      !Open(s'.cell) && s'.cell.accepted == s.cell.accepted
  {
    StaysShut(OpApply(s, op), ops);
  }

  lemma {:induction false} StaysShut<T>(s: Handles<T>, ops: seq<Op<T>>)
    requires s.cell.closed && OpRun(s, ops).Some?
    ensures OpRun(s, ops).value.cell.closed && OpRun(s, ops).value.cell.accepted == s.cell.accepted
    decreases |ops|
  {
    if ops != [] {
      StaysShut(OpApply(s, ops[0]), ops[1..]);
    }
  }

  /** Some operation of the list shuts the channel. */
  predicate SomeShuts<T>(s: Handles<T>, ops: seq<Op<T>>)
    requires OpRun(s, ops).Some?
    decreases |ops|
  {
    ops != [] && (Shuts(s, ops[0]) || SomeShuts(OpApply(s, ops[0]), ops[1..]))
  }

  /** And until then nothing shuts it: a clone, or its end, leaves the channel open. */
  lemma {:induction false} OpenUntilShut<T>(s: Handles<T>, ops: seq<Op<T>>)
    requires Open(s.cell) && OpRun(s, ops).Some?
    ensures Open(OpRun(s, ops).value.cell) <==> !SomeShuts(s, ops)
    decreases |ops|
  {
    if ops != [] {
      if Shuts(s, ops[0]) {
        StaysShut(OpApply(s, ops[0]), ops[1..]);
      } else {
        OpenUntilShut(OpApply(s, ops[0]), ops[1..]);
      }
    }
  }

  /** What is sent before the channel is shut. */
  function SentUntilShut<T>(s: Handles<T>, ops: seq<Op<T>>): seq<T>
    requires OpRun(s, ops).Some?
    decreases |ops|
  {
    if ops == [] || Shuts(s, ops[0]) then []
    else (if ops[0].Send? then [ops[0].t] else []) + SentUntilShut(OpApply(s, ops[0]), ops[1..])
  }

  /** Everything sent before the channel is shut is kept, in order, and nothing else. */
  lemma {:induction false} AcceptedIsSent<T>(s: Handles<T>, ops: seq<Op<T>>)
    requires Open(s.cell) && OpRun(s, ops).Some?
    ensures OpRun(s, ops).value.cell.accepted == s.cell.accepted + SentUntilShut(s, ops)
    decreases |ops|
  {
    if ops != [] {
      if Shuts(s, ops[0]) {
        StaysShut(OpApply(s, ops[0]), ops[1..]);
      } else {
        AcceptedIsSent(OpApply(s, ops[0]), ops[1..]);
      }
    }
  }

  /** An operation that neither marks a handle nor fails. */
  predicate Harmless<T>(op: Op<T>) {
    match op
    case SetCloseOnDrop(_, on) => !on
    case Send(_, _, room) => room
    case ReceiverGone => false
    case _ => true
  }

  /** Handles that nobody marked, clones included, come and go without shutting anything. */
  lemma {:induction false} UnmarkedNeverShut<T>(s: Handles<T>, ops: seq<Op<T>>)
    requires Open(s.cell) && OpRun(s, ops).Some?
    requires forall i :: 0 <= i < |s.handles| ==> s.handles[i] != Some(true)
    requires forall op :: op in ops ==> Harmless(op)
    ensures Open(OpRun(s, ops).value.cell)
    decreases |ops|
  {
    if ops != [] {
      assert Harmless(ops[0]);
      UnmarkedNeverShut(OpApply(s, ops[0]), ops[1..]);
    }
  }

  /** Dropping a handle that was marked shuts the channel. */
  lemma MarkedDropShuts<T>(s: Handles<T>, i: nat)
    requires Open(s.cell) && i < |s.handles| && s.handles[i].Some?
    ensures
      var ops: seq<Op<T>> := [SetCloseOnDrop(i, true), Drop(i)];
      OpRun(s, ops).Some? && !OpRun(s, ops).value.cell.some && OpRun(s, ops).value.cell.closed
  {
    var ops: seq<Op<T>> := [SetCloseOnDrop(i, true), Drop(i)];
    var rest: seq<Op<T>> := [Drop(i)];
    assert ops[1..] == rest && rest[1..] == [];
    assert OpRun(OpApply(OpApply(s, ops[0]), rest[0]), rest[1..]).Some?;
  }

  /** A clone of a marked handle is not marked: dropping it leaves the channel open. */
  lemma CloneIsUnmarked<T>(s: Handles<T>, i: nat)
    requires Open(s.cell) && i < |s.handles| && s.handles[i].Some?
    ensures
      var ops: seq<Op<T>> := [Clone(i), Drop(|s.handles|)];
      OpRun(s, ops).Some? && OpRun(s, ops).value.cell == s.cell
  {
    var ops: seq<Op<T>> := [Clone(i), Drop(|s.handles|)];
    var rest: seq<Op<T>> := [Drop(|s.handles|)];
    assert ops[1..] == rest && rest[1..] == [];
    assert OpRun(OpApply(OpApply(s, ops[0]), rest[0]), rest[1..]).Some?;
  }
}

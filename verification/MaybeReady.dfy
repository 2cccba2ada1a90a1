/**
 A cell that is decided once, as ready or failed, and any number of tasks that wait for it. The
 tasks are stepped from one lock or await to the next, in any interleaving.
 */
module MaybeReady {
  import opened Core

  /** What the mutex guards. */
  datatype Cell<C> = Ready(con: C) | Failed | Wait

  /** The cell and the semaphore it hands to waiters, which has no permits and can only be closed. */
  datatype Gate<C> = Gate(cell: Cell<C>, closed: bool)

  /** What a look at a decided cell answers. */
  function Answer<C>(cell: Cell<C>): Option<C> {
    if cell.Ready? then Some(cell.con) else None
  }

  /** A whole call of a setter: the first decision stays. */
  function Decide<C>(g: Gate<C>, decision: Cell<C>): Gate<C> {
    if g.cell.Wait? then Gate(decision, true) else g
  }

  class MaybeReadyCell<C> {
    var cell: Cell<C>
    var closed: bool

    ghost function Model(): Gate<C>
      reads this
    {
      Gate(cell, closed)
    }

    constructor ()
      ensures Model() == Gate(Wait, false)
    {
      cell, closed := Wait, false;
    }

    method SetReady(con: C)
      modifies this
      ensures Model() == Decide(old(Model()), Ready(con))
    {
      match cell {
        case Wait => closed := true;
        case _ => return;
      }
      cell := Ready(con);
    }

    method SetFailed()
      modifies this
      ensures Model() == Decide(old(Model()), Failed)
    {
      match cell {
        case Wait => closed := true;
        case _ => return;
      }
      cell := Failed;
    }

    method QueryReady() returns (r: Option<C>)
      ensures r == Answer(cell)
      ensures forall c: C :: cell == Ready(c) <==> r == Some(c)
    {
      match cell {
        case Ready(c) => r := Some(c);
        case _ => r := None;
      }
    }
  }

  // ----- tasks

  datatype SetPc = SetBegin | SetLocked | SetClosed | SetWritten | SetEnd

  /** `Slept` is the branch that the source calls unexpected. */
  datatype WaitPc<C> = WaitBegin | FirstLook | Asleep | Woken | SecondLook | Answered(r: Option<C>) | Slept

  datatype QueryPc<C> = QueryBegin | QueryLook | Queried(r: Option<C>)

  datatype Task<C> =
    | Setter(decision: Cell<C>, spc: SetPc)
    | Waiter(wpc: WaitPc<C>)
    | Query(qpc: QueryPc<C>)

  datatype State<C> = State(gate: Gate<C>, lock: Option<nat>, tasks: seq<Task<C>>)

  predicate Fresh<C>(t: Task<C>) {
    match t
    case Setter(d, pc) => !d.Wait? && pc == SetBegin
    case Waiter(pc) => pc.WaitBegin?
    case Query(pc) => pc.QueryBegin?
  }

  /** A task can take its next step: locks need the lock free, sleepers need the semaphore closed. */
  predicate Can<C>(s: State<C>, i: nat) {
    && i < |s.tasks|
    && match s.tasks[i]
       case Setter(_, pc) => (pc == SetBegin ==> s.lock == None) && pc != SetEnd
       case Waiter(pc) =>
         && (pc.WaitBegin? || pc.Woken? ==> s.lock == None)
         && (pc.Asleep? ==> s.gate.closed)
         && !pc.Answered? && !pc.Slept?
       case Query(pc) => (pc.QueryBegin? ==> s.lock == None) && !pc.Queried?
  }

  function Moved<C>(s: State<C>, i: nat, t: Task<C>, lock: Option<nat>): State<C>
    requires i < |s.tasks|
  {
    s.(tasks := s.tasks[i := t], lock := lock)
  }

  function SetterStep<C>(s: State<C>, i: nat, d: Cell<C>, pc: SetPc): State<C>
    requires i < |s.tasks| && pc != SetEnd
  {
    match pc
    case SetBegin => Moved(s, i, Setter(d, SetLocked), Some(i))
    case SetLocked =>
      if s.gate.cell.Wait? then Moved(s.(gate := s.gate.(closed := true)), i, Setter(d, SetClosed), s.lock)
      else Moved(s, i, Setter(d, SetWritten), s.lock)
    case SetClosed => Moved(s.(gate := s.gate.(cell := d)), i, Setter(d, SetWritten), s.lock)
    case SetWritten => Moved(s, i, Setter(d, SetEnd), None)
  }

  function WaiterStep<C>(s: State<C>, i: nat, pc: WaitPc<C>): State<C>
    requires i < |s.tasks| && !pc.Answered? && !pc.Slept?
  {
    match pc
    case WaitBegin => Moved(s, i, Waiter(FirstLook), Some(i))
    case FirstLook => Moved(s, i, Waiter(if s.gate.cell.Wait? then Asleep else Answered(Answer(s.gate.cell))), None)
    case Asleep => Moved(s, i, Waiter(Woken), s.lock)
    case Woken => Moved(s, i, Waiter(SecondLook), Some(i))
    case SecondLook => Moved(s, i, Waiter(if s.gate.cell.Wait? then Slept else Answered(Answer(s.gate.cell))), None)
  }

  function QueryStep<C>(s: State<C>, i: nat, pc: QueryPc<C>): State<C>
    requires i < |s.tasks| && !pc.Queried?
  {
    match pc
    case QueryBegin => Moved(s, i, Query(QueryLook), Some(i))
    case QueryLook => Moved(s, i, Query(Queried(Answer(s.gate.cell))), None)
  }

  function Step<C>(s: State<C>, i: nat): State<C>
    requires Can(s, i)
  {
    match s.tasks[i]
    case Setter(d, pc) => SetterStep(s, i, d, pc)
    case Waiter(pc) => WaiterStep(s, i, pc)
    case Query(pc) => QueryStep(s, i, pc)
  }

  // ----- what every step keeps

  predicate Holds<C>(t: Task<C>) {
    match t
    case Setter(_, pc) => pc == SetLocked || pc == SetClosed || pc == SetWritten
    case Waiter(pc) => pc.FirstLook? || pc.SecondLook?
    case Query(pc) => pc.QueryLook?
  }

  ghost predicate TaskOk<C>(t: Task<C>, g: Gate<C>) {
    match t
    case Setter(d, pc) =>
      !d.Wait? && (pc == SetClosed ==> g.cell.Wait? && g.closed) && (pc == SetWritten || pc == SetEnd ==> !g.cell.Wait?)
    case Waiter(pc) =>
      && (pc.Woken? || pc.SecondLook? ==> g.closed)
      && (pc.Answered? ==> !g.cell.Wait? && pc.r == Answer(g.cell))
      && !pc.Slept?
    case Query(pc) => pc.Queried? && pc.r.Some? ==> g.cell == Ready(pc.r.value)
  }

  /** A setter between closing the semaphore and writing the cell. */
  predicate Closing<C>(s: State<C>) {
    s.lock.Some? && s.lock.value < |s.tasks| && s.tasks[s.lock.value].Setter? && s.tasks[s.lock.value].spc == SetClosed
  }

  /** Task j asks, or asked, for this decision. */
  ghost predicate Asks<C>(s: State<C>, j: nat, d: Cell<C>) {
    j < |s.tasks| && s.tasks[j].Setter? && s.tasks[j].decision == d
  }

  ghost predicate Inv<C>(s: State<C>) {
    && (forall i :: 0 <= i < |s.tasks| ==> TaskOk(s.tasks[i], s.gate) && (Holds(s.tasks[i]) <==> s.lock == Some(i)))
    && (s.lock.Some? ==> s.lock.value < |s.tasks|)
    && (s.gate.closed <==> !s.gate.cell.Wait? || Closing(s))
    && (!s.gate.cell.Wait? ==> exists j :: Asks(s, j, s.gate.cell))
  }

  lemma StepKeeps<C>(s: State<C>, i: nat)
    requires Inv(s) && Can(s, i)
    ensures Inv(Step(s, i))
  {
    var t := Step(s, i);
    forall j | 0 <= j < |t.tasks|
      ensures TaskOk(t.tasks[j], t.gate) && (Holds(t.tasks[j]) <==> t.lock == Some(j))
    {
      assert TaskOk(s.tasks[j], s.gate) && (Holds(s.tasks[j]) <==> s.lock == Some(j));
    }
    if s.gate.cell.Wait? {
      assert !t.gate.cell.Wait? ==> Asks(t, i, t.gate.cell);
    } else {
      var j :| Asks(s, j, s.gate.cell);
      assert Asks(t, j, t.gate.cell);
    }
  }

  lemma SpawnKeeps<C>(s: State<C>, t: Task<C>)
    requires Inv(s) && Fresh(t)
    ensures Inv(s.(tasks := s.tasks + [t]))
  {
    if !s.gate.cell.Wait? {
      var j :| Asks(s, j, s.gate.cell);
      assert Asks(s.(tasks := s.tasks + [t]), j, s.gate.cell);
    }
  }

  // ----- runs

  datatype Event<C> = Spawn(task: Task<C>) | Run(i: nat)

  predicate Possible<C>(s: State<C>, e: Event<C>) {
    match e
    case Spawn(t) => Fresh(t)
    case Run(i) => Can(s, i)
  }

  function After<C>(s: State<C>, e: Event<C>): State<C>
    requires Possible(s, e)
  {
    match e
    case Spawn(t) => s.(tasks := s.tasks + [t])
    case Run(i) => Step(s, i)
  }

  ghost predicate Behavior<C>(t: seq<State<C>>, events: seq<Event<C>>) {
    && |t| == |events| + 1 && t[0] == State(Gate(Wait, false), None, [])
    && forall n :: 0 <= n < |events| ==> Possible(t[n], events[n]) && t[n + 1] == After(t[n], events[n])
  }

  lemma {:induction false} BehaviorKeeps<C>(t: seq<State<C>>, events: seq<Event<C>>, n: nat)
    requires Behavior(t, events) && n < |t|
    ensures Inv(t[n])
  {
    if n > 0 {
      BehaviorKeeps(t, events, n - 1);
      match events[n - 1]
      case Spawn(task) => SpawnKeeps(t[n - 1], task);
      case Run(i) => StepKeeps(t[n - 1], i);
    }
  }

  /** The cell leaves Wait at most once. */
  lemma {:induction false} DecidedOnce<C>(t: seq<State<C>>, events: seq<Event<C>>, m: nat, n: nat)
    requires Behavior(t, events) && m <= n < |t| && !t[m].gate.cell.Wait?
    ensures t[n].gate.cell == t[m].gate.cell
  {
    if m < n {
      DecidedOnce(t, events, m, n - 1);
      BehaviorKeeps(t, events, n - 1);
      assert Possible(t[n - 1], events[n - 1]) && t[n] == After(t[n - 1], events[n - 1]);
    }
  }

  /** What a setter that holds the lock has made of the gate it found. */
  ghost predicate Made<C>(found: Gate<C>, g: Gate<C>, d: Cell<C>, pc: SetPc) {
    match pc
    case SetLocked => g == found
    case SetClosed => found.cell.Wait? && g == found.(closed := true)
    case SetWritten => g == Decide(found, d)
    case _ => false
  }

  lemma OneStepMakes<C>(s: State<C>, e: Event<C>, found: Gate<C>, i: nat, d: Cell<C>, pc: SetPc)
    requires Inv(s) && Possible(s, e) && s.lock == Some(i) && After(s, e).lock == Some(i)
    requires i < |s.tasks| && s.tasks[i] == Setter(d, pc) && Made(found, s.gate, d, pc)
    ensures
      var t := After(s, e);
      i < |t.tasks| && t.tasks[i].Setter? && t.tasks[i].decision == d && Made(found, t.gate, d, t.tasks[i].spc)
  {
    if e.Run? && e.i != i {
      assert Holds(s.tasks[e.i]) <==> s.lock == Some(e.i);
    }
  }

  /**
   The steps of a setter, however many others come between them, do what its method does: when it
   is about to release the lock, the gate is the one it found with its decision made.
   */
  lemma {:induction false} SetterDecides<C>(t: seq<State<C>>, events: seq<Event<C>>, i: nat, d: Cell<C>, from: nat, n: nat)
    requires Behavior(t, events) && from <= n < |t|
    requires i < |t[from].tasks| && t[from].tasks[i] == Setter(d, SetLocked)
    requires forall k :: from <= k <= n ==> t[k].lock == Some(i)
    ensures i < |t[n].tasks| && t[n].tasks[i].Setter? && t[n].tasks[i].decision == d
    ensures Made(t[from].gate, t[n].gate, d, t[n].tasks[i].spc)
    ensures t[n].tasks[i].spc == SetWritten ==> t[n].gate == Decide(t[from].gate, d)
  {
    if from < n {
      SetterDecides(t, events, i, d, from, n - 1);
      BehaviorKeeps(t, events, n - 1);
      assert Possible(t[n - 1], events[n - 1]) && t[n - 1 + 1] == After(t[n - 1], events[n - 1]);
      OneStepMakes(t[n - 1], events[n - 1], t[from].gate, i, d, t[n - 1].tasks[i].spc);
    }
  }

  /** How a waiter stands that has its answer. */
  predicate HasAnswer<C>(s: State<C>, i: nat) {
    i < |s.tasks| && s.tasks[i].Waiter? && s.tasks[i].wpc.Answered?
  }

  /**
   In every run: whoever takes the lock after the semaphore is closed finds the cell decided, as
   some setter asked; once it is decided no sleeper is left without its wake-up; all waiters, early
   and late, get the answer of that one decision; no waiter wakes to an undecided cell; and a query
   that found a connection found the one that was decided on.
   */
  lemma OneAnswerForAll<C>(t: seq<State<C>>, events: seq<Event<C>>, n: nat)
    requires Behavior(t, events) && n < |t|
    ensures
      var s := t[n];
      && (s.gate.closed && s.lock == None ==> !s.gate.cell.Wait?)
      && (!s.gate.cell.Wait? ==> s.gate.closed && exists j :: Asks(s, j, s.gate.cell))
      && (forall i: nat :: HasAnswer(s, i) ==>
            match s.gate.cell
            case Ready(c) => s.tasks[i].wpc.r == Some(c)
            case Failed => s.tasks[i].wpc.r == None
            case Wait => false)
      && (forall i :: 0 <= i < |s.tasks| && s.tasks[i].Waiter? ==> !s.tasks[i].wpc.Slept?)
      && (forall i :: 0 <= i < |s.tasks| && s.tasks[i].Query? && s.tasks[i].qpc.Queried? && s.tasks[i].qpc.r.Some? ==>
            s.gate.cell == Ready(s.tasks[i].qpc.r.value))
  {
    BehaviorKeeps(t, events, n);
    forall i | 0 <= i < |t[n].tasks|
      ensures TaskOk(t[n].tasks[i], t[n].gate)
    {
    }
  }

  /** Answers given at different times agree. */
  lemma AnswersAgree<C>(t: seq<State<C>>, events: seq<Event<C>>, m: nat, n: nat, i: nat, j: nat)
    requires Behavior(t, events) && m <= n < |t| && HasAnswer(t[m], i) && HasAnswer(t[n], j)
    ensures t[m].tasks[i].wpc.r == t[n].tasks[j].wpc.r
  {
    OneAnswerForAll(t, events, m);
    OneAnswerForAll(t, events, n);
    DecidedOnce(t, events, m, n);
  }

  /** Task i has not asked, or is told about `c`. */
  predicate AsksOrFinds<C(==)>(s: State<C>, i: nat, c: C) {
    i < |s.tasks| && s.tasks[i].Query? && s.tasks[i].qpc.Queried? ==> s.tasks[i].qpc.r == Some(c)
  }

  /** A query that was not over when the cell became ready finds the connection. */
  lemma {:induction false} QueryFinds<C>(t: seq<State<C>>, events: seq<Event<C>>, m: nat, n: nat, i: nat, c: C)
    requires Behavior(t, events) && m <= n < |t| && t[m].gate.cell == Ready(c)
    requires AsksOrFinds(t[m], i, c)
    ensures AsksOrFinds(t[n], i, c)
  {
    if m < n {
      QueryFinds(t, events, m, n - 1, i, c);
      DecidedOnce(t, events, m, n - 1);
      assert Possible(t[n - 1], events[n - 1]) && t[n - 1 + 1] == After(t[n - 1], events[n - 1]);
    }
  }

  predicate Over<C>(t: Task<C>) {
    match t
    case Setter(_, pc) => pc == SetEnd
    case Waiter(pc) => pc.Answered?
    case Query(pc) => pc.Queried?
  }

  /** Whoever holds the lock can go on. */
  lemma HolderMoves<C>(s: State<C>)
    requires Inv(s) && s.lock.Some?
    ensures Can(s, s.lock.value)
  {
    assert Holds(s.tasks[s.lock.value]);
  }

  /** If no task can move, all are over, except waiters asleep before any decision was asked for. */
  lemma NobodyIsForgotten<C>(t: seq<State<C>>, events: seq<Event<C>>, n: nat, i: nat)
    requires Behavior(t, events) && n < |t| && i < |t[n].tasks|
    requires forall j :: 0 <= j < |t[n].tasks| ==> !Can(t[n], j)
    ensures
      || Over(t[n].tasks[i])
      || (t[n].tasks[i] == Waiter(Asleep) && forall j :: 0 <= j < |t[n].tasks| ==> !t[n].tasks[j].Setter?)
  {
    BehaviorKeeps(t, events, n);
    var s := t[n];
    assert s.lock == None by {
      if s.lock.Some? {
        HolderMoves(s);
      }
    }
    assert !Can(s, i) && TaskOk(s.tasks[i], s.gate);
    if !Over(s.tasks[i]) {
      forall j | 0 <= j < |s.tasks|
        ensures !s.tasks[j].Setter?
      {
        assert !Can(s, j) && TaskOk(s.tasks[j], s.gate);
      }
    }
  }

  /** Steps a task has left at most. */
  function Left<C>(t: Task<C>): nat {
    match t
    case Setter(_, pc) =>
      (match pc case SetBegin => 4 case SetLocked => 3 case SetClosed => 2 case SetWritten => 1 case SetEnd => 0)
    case Waiter(pc) =>
      (match pc
       case WaitBegin => 5 case FirstLook => 4 case Asleep => 3 case Woken => 2 case SecondLook => 1 case _ => 0)
    case Query(pc) => (match pc case QueryBegin => 2 case QueryLook => 1 case Queried(_) => 0)
  }

  function TotalLeft<C>(tasks: seq<Task<C>>): nat {
    if tasks == [] then 0 else Left(tasks[0]) + TotalLeft(tasks[1..])
  }

  lemma {:induction false} LeftAfterUpdate<C>(tasks: seq<Task<C>>, i: nat, t: Task<C>)
    requires i < |tasks|
    ensures TotalLeft(tasks[i := t]) + Left(tasks[i]) == TotalLeft(tasks) + Left(t)
  {
    if i == 0 {
      assert tasks[i := t][1..] == tasks[1..];
    } else {
      LeftAfterUpdate(tasks[1..], i - 1, t);
      assert tasks[i := t][1..] == tasks[1..][i - 1 := t];
    }
  }

  /** Steps bring the end nearer, so without new tasks every run comes to rest. */
  lemma StepsRunOut<C>(s: State<C>, i: nat)
    requires Can(s, i)
    ensures TotalLeft(Step(s, i).tasks) < TotalLeft(s.tasks)
  {
    LeftAfterUpdate(s.tasks, i, Step(s, i).tasks[i]);
  }
}

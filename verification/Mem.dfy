/**
 The in-memory backend: endpoints live in a slab whose slots are reused, and a public key names a
 slot together with a number that is never reused.
 */
module Mem {
  import opened Core

  const TWO_64: nat := 0x1_0000_0000_0000_0000
  type u64 = x: int | 0 <= x < 0x1_0000_0000_0000_0000

  // ----- public keys

  function Pow256(k: nat): nat {
    if k == 0 then 1 else 256 * Pow256(k - 1)
  }

  function ToBytes(n: nat, k: nat): (s: seq<byte>)
    ensures |s| == k
  {
    if k == 0 then [] else ToBytes(n / 256, k - 1) + [n % 256]
  }

  function FromBytes(s: seq<byte>): nat {
    if s == [] then 0 else 256 * FromBytes(s[..|s| - 1]) + s[|s| - 1]
  }

  lemma {:induction false} BytesBack(n: nat, k: nat)
    requires n < Pow256(k)
    ensures FromBytes(ToBytes(n, k)) == n
  {
    if k > 0 {
      BytesBack(n / 256, k - 1);
      assert ToBytes(n, k)[..k - 1] == ToBytes(n / 256, k - 1);
    }
  }

  lemma {:induction false} BytesForth(s: seq<byte>)
    ensures FromBytes(s) < Pow256(|s|) && ToBytes(FromBytes(s), |s|) == s
  {
    if s != [] {
      BytesForth(s[..|s| - 1]);
      assert s == s[..|s| - 1] + [s[|s| - 1]];
    }
  }

  lemma EightBytes()
    ensures Pow256(8) == TWO_64
  {
    assert Pow256(4) == 0x1_0000_0000;
  }

  const FILL: seq<byte> := [0xb7, 0xb7, 0xb7, 0xb7, 0xb7, 0xb7, 0xb7, 0xb7, 0xb7, 0xb7, 0xb7, 0xb7, 0xb7, 0xb7, 0xb7, 0xb7]

  type Key = k: seq<byte> | |k| == 32 witness FILL + FILL

  function GenPubKey(uniq: u64, loc: u64): Key {
    FILL + ToBytes(uniq, 8) + ToBytes(loc, 8)
  }

  datatype Address = Address(uniq: u64, loc: u64)

  function ParsePubKey(k: Key): Address {
    EightBytes();
    BytesForth(k[16..24]);
    BytesForth(k[24..]);
    Address(FromBytes(k[16..24]), FromBytes(k[24..]))
  }

  lemma ParseUndoesGen(uniq: u64, loc: u64)
    ensures ParsePubKey(GenPubKey(uniq, loc)) == Address(uniq, loc)
  {
    EightBytes();
    BytesBack(uniq, 8);
    BytesBack(loc, 8);
    var k := GenPubKey(uniq, loc);
    assert k[16..24] == ToBytes(uniq, 8) && k[24..] == ToBytes(loc, 8);
  }

  /** Parsing ignores the first half of a key: it is undone exactly on keys with the usual first half. */
  lemma GenUndoesParse(k: Key)
    ensures var a := ParsePubKey(k); GenPubKey(a.uniq, a.loc) == k <==> k[..16] == FILL
    ensures var a := ParsePubKey(k); GenPubKey(a.uniq, a.loc)[16..] == k[16..]
  {
    EightBytes();
    BytesForth(k[16..24]);
    BytesForth(k[24..]);
    var a := ParsePubKey(k);
    var g := GenPubKey(a.uniq, a.loc);
    assert k[16..] == k[16..24] + k[24..];
    assert g[..16] == FILL && g[16..] == ToBytes(a.uniq, 8) + ToBytes(a.loc, 8);
    assert k == k[..16] + k[16..] && g == g[..16] + g[16..];
  }

  /** Eight bytes, the most significant first. */
  function BigEndian8(k: seq<int>, i: nat): int
    requires i + 8 <= |k|
  {
    ((((((k[i] * 256 + k[i + 1]) * 256 + k[i + 2]) * 256 + k[i + 3]) * 256 + k[i + 4]) * 256 + k[i + 5]) * 256
     + k[i + 6]) * 256 + k[i + 7]
  }

  lemma OneByteMore(s: seq<byte>, n: nat)
    requires n < |s|
    ensures FromBytes(s[..n + 1]) == 256 * FromBytes(s[..n]) + s[n]
  {
    assert s[..n + 1][..n] == s[..n];
  }

  lemma EightDigits(s: seq<byte>)
    requires |s| == 8
    ensures FromBytes(s) == BigEndian8(s, 0)
  {
    assert s[..8] == s && s[..0] == [];
    OneByteMore(s, 0);
    OneByteMore(s, 1);
    OneByteMore(s, 2);
    OneByteMore(s, 3);
    OneByteMore(s, 4);
    OneByteMore(s, 5);
    OneByteMore(s, 6);
    OneByteMore(s, 7);
  }

  /** A key is sixteen bytes 0xb7, then the number, then the slot, both big-endian. */
  lemma KeyLayout(uniq: u64, loc: u64)
    ensures
      var k := GenPubKey(uniq, loc);
      && (forall i :: 0 <= i < 16 ==> k[i] == 0xb7)
      && BigEndian8(k, 16) == uniq && BigEndian8(k, 24) == loc
  {
    EightBytes();
    var k, u, l := GenPubKey(uniq, loc), ToBytes(uniq, 8), ToBytes(loc, 8);
    BytesBack(uniq, 8);
    BytesBack(loc, 8);
    EightDigits(u);
    EightDigits(l);
    assert forall i :: 0 <= i < 8 ==> k[16 + i] == u[i] && k[24 + i] == l[i];
  }

  // ----- endpoints, slots and connect calls

  /** The last reference is dropped, and then `drop` runs `remove`. */
  datatype Phase = Live | Dropping | Gone

  /** One end of a pair of channels. */
  datatype WaitCon = WaitCon(pubKey: Key, sends: nat, recvs: nat)

  datatype Ep = Ep(uniq: u64, loc: u64, phase: Phase, recvOpen: bool, inbox: seq<WaitCon>)

  /** How a call ended; `e` is history, the endpoint reached. */
  datatype Ended =
    | Connected(wait: WaitCon, e: nat)
    | ToSelf
    | NoPeer
    | PeerClosed
    | WrongUniq
    | ChanClosed

  /** Where a `connect` call stands: nothing done, weak reference cloned, upgraded, returned. */
  datatype Pc = Begun | Cloned(e: nat) | Holding(e: nat) | Done(ended: Ended)

  datatype Call = Call(src: nat, dst: Key, pc: Pc)

  /** `eps` are all endpoints ever made; `pending` the numbers drawn by listens that wait for the lock. */
  datatype State = State(
    slab: map<u64, nat>,
    eps: seq<Ep>,
    pending: seq<u64>,
    nextUniq: nat,
    calls: seq<Call>,
    pairs: nat)

  datatype Event =
    | FetchUniq
    | Insert(p: nat, loc: u64)
    | LastRefDropped(e: nat)
    | Remove(e: nat)
    | RecvDropped(e: nat)
    | Connect(src: nat, dst: Key)
    | Lookup(c: nat)
    | Upgrade(c: nat)
    | Finish(c: nat)

  function KeyOf(ep: Ep): Key {
    GenPubKey(ep.uniq, ep.loc)
  }

  predicate Can(s: State, e: Event) {
    match e
    case FetchUniq => s.nextUniq < TWO_64
    case Insert(p, loc) => p < |s.pending| && loc !in s.slab
    case LastRefDropped(i) => i < |s.eps| && s.eps[i].phase == Live &&
                              forall c :: 0 <= c < |s.calls| ==> s.calls[c].pc != Holding(i)
    case Remove(i) => i < |s.eps| && s.eps[i].phase == Dropping
    case RecvDropped(i) => i < |s.eps|
    case Connect(src, _) => src < |s.eps| && s.eps[src].phase == Live
    case Lookup(c) => c < |s.calls| && s.calls[c].pc == Begun
    case Upgrade(c) => c < |s.calls| && s.calls[c].pc.Cloned? && s.calls[c].pc.e < |s.eps|
    case Finish(c) => c < |s.calls| && s.calls[c].pc.Holding? && s.calls[c].pc.e < |s.eps| && s.calls[c].src < |s.eps|
  }

  /** `remove` under the lock; only a live endpoint can be upgraded. */
  function Removed(slab: map<u64, nat>, eps: seq<Ep>, uniq: u64, loc: u64): map<u64, nat> {
    if loc in slab && slab[loc] < |eps| then
      var ep := eps[slab[loc]];
      if ep.phase == Live then if ep.uniq == uniq then slab - {loc} else slab
      else slab - {loc}
    else slab
  }

  function With(s: State, c: nat, pc: Pc): State
    requires c < |s.calls|
  {
    s.(calls := s.calls[c := s.calls[c].(pc := pc)])
  }

  /** Both waits of pair n: one for the caller, named after the target, and one for the target. */
  function CallerWait(dst: Key, n: nat): WaitCon {
    WaitCon(dst, 2 * n, 2 * n + 1)
  }

  function TargetWait(src: Key, n: nat): WaitCon {
    WaitCon(src, 2 * n + 1, 2 * n)
  }

  function Finished(s: State, c: nat): State
    requires Can(s, Finish(c))
  {
    var call := s.calls[c];
    var e := call.pc.e;
    var ep := s.eps[e];
    if ep.uniq != ParsePubKey(call.dst).uniq then With(s, c, Done(WrongUniq))
    else
      var t := s.(pairs := s.pairs + 1);
      if !ep.recvOpen then With(t, c, Done(ChanClosed))
      else With(t.(eps := s.eps[e := ep.(inbox := ep.inbox + [TargetWait(KeyOf(s.eps[call.src]), s.pairs)])]),
                c, Done(Connected(CallerWait(call.dst, s.pairs), e)))
  }

  function Apply(s: State, e: Event): State
    requires Can(s, e)
  {
    match e
    case FetchUniq => s.(pending := s.pending + [s.nextUniq], nextUniq := s.nextUniq + 1)
    case Insert(p, loc) =>
      s.(slab := s.slab[loc := |s.eps|],
         eps := s.eps + [Ep(s.pending[p], loc, Live, true, [])],
         pending := s.pending[..p] + s.pending[p + 1..])
    case LastRefDropped(i) => s.(eps := s.eps[i := s.eps[i].(phase := Dropping)])
    case Remove(i) =>
      s.(slab := Removed(s.slab, s.eps, s.eps[i].uniq, s.eps[i].loc),
         eps := s.eps[i := s.eps[i].(phase := Gone)])
    case RecvDropped(i) => s.(eps := s.eps[i := s.eps[i].(recvOpen := false)])
    case Connect(src, dst) =>
      s.(calls := s.calls + [Call(src, dst, if KeyOf(s.eps[src]) == dst then Done(ToSelf) else Begun)])
    case Lookup(c) =>
      var loc := ParsePubKey(s.calls[c].dst).loc;
      With(s, c, if loc in s.slab then Cloned(s.slab[loc]) else Done(NoPeer))
    case Upgrade(c) =>
      var i := s.calls[c].pc.e;
      With(s, c, if s.eps[i].phase == Live then Holding(i) else Done(PeerClosed))
    case Finish(c) => Finished(s, c)
  }

  // ----- what every step keeps

  predicate UniqOk(s: State) {
    && (forall i :: 0 <= i < |s.eps| ==> s.eps[i].uniq < s.nextUniq)
    && (forall p :: 0 <= p < |s.pending| ==> s.pending[p] < s.nextUniq)
    && (forall i, j :: 0 <= i < j < |s.eps| ==> s.eps[i].uniq != s.eps[j].uniq)
    && (forall p, q :: 0 <= p < q < |s.pending| ==> s.pending[p] != s.pending[q])
    && (forall i, p :: 0 <= i < |s.eps| && 0 <= p < |s.pending| ==> s.eps[i].uniq != s.pending[p])
  }

  /** The slots in use are exactly those of the endpoints whose `remove` has not run. */
  predicate SlabOk(s: State) {
    && (forall loc :: loc in s.slab ==>
          s.slab[loc] < |s.eps| && s.eps[s.slab[loc]].loc == loc && s.eps[s.slab[loc]].phase != Gone)
    && (forall i :: 0 <= i < |s.eps| && s.eps[i].phase != Gone ==>
          s.eps[i].loc in s.slab && s.slab[s.eps[i].loc] == i)
  }

  predicate CallOk(s: State, call: Call) {
    && call.src < |s.eps|
    && match call.pc
       case Begun => true
       case Cloned(e) => e < |s.eps| && s.eps[e].loc == ParsePubKey(call.dst).loc
       case Holding(e) => e < |s.eps| && s.eps[e].loc == ParsePubKey(call.dst).loc && s.eps[e].phase == Live
       case Done(Connected(w, e)) => e < |s.eps| && Reached(s.eps[e], KeyOf(s.eps[call.src]), call.dst, w, s.pairs)
       case Done(_) => true
  }

  /** The endpoint has the key's address, and holds the other end of the caller's pair. */
  predicate Reached(ep: Ep, src: Key, dst: Key, w: WaitCon, pairs: nat) {
    && Address(ep.uniq, ep.loc) == ParsePubKey(dst)
    && w.pubKey == dst && w.recvs == w.sends + 1 && w.sends < 2 * pairs && w.sends % 2 == 0
    && WaitCon(src, w.recvs, w.sends) in ep.inbox
  }

  predicate OwnPairs(calls: seq<Call>) {
    forall c, d :: 0 <= c < d < |calls| && IsConnected(calls[c]) && IsConnected(calls[d]) ==>
      calls[c].pc.ended.wait.sends != calls[d].pc.ended.wait.sends
  }

  predicate IsConnected(call: Call) {
    call.pc.Done? && call.pc.ended.Connected?
  }

  predicate CallsOk(s: State) {
    (forall c :: 0 <= c < |s.calls| ==> CallOk(s, s.calls[c])) && OwnPairs(s.calls)
  }

  predicate Inv(s: State) {
    UniqOk(s) && SlabOk(s) && CallsOk(s)
  }

  const INIT := State(map[], [], [], 1, [], 0)

  /** The later state knows all endpoints of the earlier one, and their inboxes only grow. */
  predicate Extends(s: State, t: State) {
    && |s.eps| <= |t.eps| && s.pairs <= t.pairs
    && forall i :: 0 <= i < |s.eps| ==>
         && t.eps[i].uniq == s.eps[i].uniq && t.eps[i].loc == s.eps[i].loc
         && s.eps[i].inbox <= t.eps[i].inbox
  }

  /** A call stands if nothing it holds on to was dropped. */
  lemma CallStands(s: State, t: State, call: Call)
    requires CallOk(s, call) && Extends(s, t)
    requires call.pc.Holding? ==> t.eps[call.pc.e].phase == Live
    ensures CallOk(t, call)
  {
  }

  lemma CallsStand(s: State, t: State)
    requires CallsOk(s) && Extends(s, t) && t.calls == s.calls
    requires forall c :: 0 <= c < |s.calls| && s.calls[c].pc.Holding? ==> t.eps[s.calls[c].pc.e].phase == Live
    ensures CallsOk(t)
  {
    forall c | 0 <= c < |t.calls|
      ensures CallOk(t, t.calls[c])
    {
      CallStands(s, t, s.calls[c]);
    }
  }

  /** Nothing but inboxes and receivers changed. */
  lemma SameEndpoints(s: State, t: State)
    requires UniqOk(s) && SlabOk(s) && t.slab == s.slab && t.pending == s.pending && t.nextUniq == s.nextUniq
    requires |t.eps| == |s.eps|
    requires forall i :: 0 <= i < |s.eps| ==>
               t.eps[i].uniq == s.eps[i].uniq && t.eps[i].loc == s.eps[i].loc && t.eps[i].phase == s.eps[i].phase
    ensures UniqOk(t) && SlabOk(t)
  {
  }

  lemma InsertKeepsUniq(s: State, p: nat, loc: u64)
    requires UniqOk(s) && Can(s, Insert(p, loc))
    ensures UniqOk(Apply(s, Insert(p, loc)))
  {
    var t := Apply(s, Insert(p, loc));
    forall q | 0 <= q < |t.pending|
      ensures t.pending[q] != s.pending[p] && t.pending[q] == s.pending[if q < p then q else q + 1]
    {
    }
  }

  lemma InsertKeeps(s: State, p: nat, loc: u64)
    requires Inv(s) && Can(s, Insert(p, loc))
    ensures Inv(Apply(s, Insert(p, loc)))
  {
    InsertKeepsUniq(s, p, loc);
    CallsStand(s, Apply(s, Insert(p, loc)));
  }

  /** `remove` takes out the slot of the endpoint that is dropped, and no other. */
  lemma RemoveTakesOwnSlot(s: State, i: nat)
    requires Inv(s) && Can(s, Remove(i))
    ensures s.eps[i].loc in s.slab && s.slab[s.eps[i].loc] == i
    ensures Apply(s, Remove(i)).slab == s.slab - {s.eps[i].loc}
    ensures forall j :: 0 <= j < |s.eps| && s.eps[j].phase == Live ==>
              s.eps[j].loc in Apply(s, Remove(i)).slab && Apply(s, Remove(i)).slab[s.eps[j].loc] == j
  {
  }

  lemma RemoveKeeps(s: State, i: nat)
    requires Inv(s) && Can(s, Remove(i))
    ensures Inv(Apply(s, Remove(i)))
  {
    RemoveTakesOwnSlot(s, i);
    CallsStand(s, Apply(s, Remove(i)));
  }

  lemma FetchKeeps(s: State)
    requires Inv(s) && Can(s, FetchUniq)
    ensures Inv(Apply(s, FetchUniq))
  {
    CallsStand(s, Apply(s, FetchUniq));
  }

  lemma DropKeeps(s: State, i: nat)
    requires Inv(s) && Can(s, LastRefDropped(i))
    ensures Inv(Apply(s, LastRefDropped(i)))
  {
    CallsStand(s, Apply(s, LastRefDropped(i)));
  }

  lemma RecvDropKeeps(s: State, i: nat)
    requires Inv(s) && Can(s, RecvDropped(i))
    ensures Inv(Apply(s, RecvDropped(i)))
  {
    var t := Apply(s, RecvDropped(i));
    SameEndpoints(s, t);
    CallsStand(s, t);
  }

  /** A call that moves on. */
  lemma CallMoves(s: State, c: nat, pc: Pc)
    requires Inv(s) && c < |s.calls| && CallOk(s, s.calls[c].(pc := pc)) && !IsConnected(s.calls[c].(pc := pc))
    ensures Inv(With(s, c, pc))
  {
    var t := With(s, c, pc);
    forall d | 0 <= d < |t.calls|
      ensures CallOk(t, t.calls[d])
    {
      assert CallOk(s, s.calls[d]);
    }
  }

  lemma ConnectKeeps(s: State, src: nat, dst: Key)
    requires Inv(s) && Can(s, Connect(src, dst))
    ensures Inv(Apply(s, Connect(src, dst)))
  {
    var t := Apply(s, Connect(src, dst));
    forall d | 0 <= d < |t.calls|
      ensures CallOk(t, t.calls[d])
    {
      if d < |s.calls| {
        assert CallOk(s, s.calls[d]);
      }
    }
  }

  /** The pair of a new connection is nobody else's. */
  lemma NewPair(s: State, c: nat, call: Call)
    requires CallsOk(s) && c < |s.calls| && (IsConnected(call) ==> call.pc.ended.wait.sends == 2 * s.pairs)
    ensures OwnPairs(s.calls[c := call])
  {
    forall d | 0 <= d < |s.calls| && IsConnected(s.calls[d])
      ensures s.calls[d].pc.ended.wait.sends < 2 * s.pairs
    {
      assert CallOk(s, s.calls[d]);
    }
  }

  /** A call that succeeds leaves its pair's other end in the inbox, and the pair is new. */
  lemma SuccessKeeps(s: State, c: nat)
    requires Inv(s) && Can(s, Finish(c)) && IsConnected(Apply(s, Finish(c)).calls[c])
    ensures Inv(Apply(s, Finish(c)))
  {
    var t := Apply(s, Finish(c));
    SameEndpoints(s, t);
    NewPair(s, c, t.calls[c]);
    forall d | 0 <= d < |t.calls|
      ensures CallOk(t, t.calls[d])
    {
      assert CallOk(s, s.calls[d]);
      if d == c {
        SuccessIsReached(s, c);
      } else {
        CallStands(s, t, s.calls[d]);
      }
    }
  }

  lemma SuccessIsReached(s: State, c: nat)
    requires Can(s, Finish(c)) && CallOk(s, s.calls[c]) && IsConnected(Apply(s, Finish(c)).calls[c])
    ensures CallOk(Apply(s, Finish(c)), Apply(s, Finish(c)).calls[c])
  {
    var t := Apply(s, Finish(c));
    var ep := t.eps[s.calls[c].pc.e];
    assert ep.inbox[|ep.inbox| - 1] == TargetWait(KeyOf(s.eps[s.calls[c].src]), s.pairs);
  }

  lemma PairSpent(s: State)
    requires Inv(s)
    ensures Inv(s.(pairs := s.pairs + 1))
  {
    var t := s.(pairs := s.pairs + 1);
    SameEndpoints(s, t);
    CallsStand(s, t);
  }

  lemma FailureKeeps(s: State, c: nat, ended: Ended)
    requires Inv(s) && c < |s.calls| && !ended.Connected?
    ensures Inv(With(s, c, Done(ended)))
  {
    assert CallOk(s, s.calls[c]);
    CallMoves(s, c, Done(ended));
  }

  lemma ChanClosedKeeps(s: State, c: nat)
    requires Inv(s) && c < |s.calls|
    ensures Inv(With(s.(pairs := s.pairs + 1), c, Done(ChanClosed)))
  {
    PairSpent(s);
    FailureKeeps(s.(pairs := s.pairs + 1), c, ChanClosed);
  }

  lemma FinishCases(s: State, c: nat)
    requires Can(s, Finish(c))
    ensures
      var t := Apply(s, Finish(c));
      || IsConnected(t.calls[c])
      || t == With(s, c, Done(WrongUniq))
      || t == With(s.(pairs := s.pairs + 1), c, Done(ChanClosed))
  {
  }

  lemma FinishKeeps(s: State, c: nat)
    requires Inv(s) && Can(s, Finish(c))
    ensures Inv(Apply(s, Finish(c)))
  {
    FinishCases(s, c);
    if IsConnected(Apply(s, Finish(c)).calls[c]) {
      SuccessKeeps(s, c);
    } else {
      FailureKeeps(s, c, WrongUniq);
      ChanClosedKeeps(s, c);
    }
  }

  lemma LookupKeeps(s: State, c: nat)
    requires Inv(s) && Can(s, Lookup(c))
    ensures Inv(Apply(s, Lookup(c)))
  {
    assert CallOk(s, s.calls[c]);
    CallMoves(s, c, Apply(s, Lookup(c)).calls[c].pc);
  }

  lemma UpgradeKeeps(s: State, c: nat)
    requires Inv(s) && Can(s, Upgrade(c))
    ensures Inv(Apply(s, Upgrade(c)))
  {
    assert CallOk(s, s.calls[c]);
    CallMoves(s, c, Apply(s, Upgrade(c)).calls[c].pc);
  }

  lemma StepKeeps(s: State, e: Event)
    requires Inv(s) && Can(s, e)
    ensures Inv(Apply(s, e))
  {
    match e
    case FetchUniq => FetchKeeps(s);
    case Insert(p, loc) => InsertKeeps(s, p, loc);
    case LastRefDropped(i) => DropKeeps(s, i);
    case Remove(i) => RemoveKeeps(s, i);
    case RecvDropped(i) => RecvDropKeeps(s, i);
    case Connect(src, dst) => ConnectKeeps(s, src, dst);
    case Lookup(c) => LookupKeeps(s, c);
    case Upgrade(c) => UpgradeKeeps(s, c);
    case Finish(c) => FinishKeeps(s, c);
  }

  // ----- runs

  ghost predicate Run(t: seq<State>, events: seq<Event>) {
    && |t| == |events| + 1 && t[0] == INIT
    && forall n :: 0 <= n < |events| ==> Can(t[n], events[n]) && t[n + 1] == Apply(t[n], events[n])
  }

  lemma {:induction false} RunKeeps(t: seq<State>, events: seq<Event>, n: nat)
    requires Run(t, events) && n < |t|
    ensures Inv(t[n])
  {
    if n > 0 {
      RunKeeps(t, events, n - 1);
      StepKeeps(t[n - 1], events[n - 1]);
    }
  }

  /** An endpoint's key is nobody else's, even after its slot is reused. */
  lemma KeysAreUnique(s: State, i: nat, j: nat)
    requires UniqOk(s) && i < |s.eps| && j < |s.eps| && ParsePubKey(KeyOf(s.eps[i])).uniq == s.eps[j].uniq
    ensures i == j
  {
    ParseUndoesGen(s.eps[i].uniq, s.eps[i].loc);
  }

  /** Two ends of different pairs. */
  predicate Disjoint(v: WaitCon, w: WaitCon) {
    v.sends != w.sends && v.sends != w.recvs && v.recvs != w.sends && v.recvs != w.recvs
  }

  /**
   However listens, drops, removals and connects interleave and slots are reused: a call that
   connected reached an endpoint with the address of its key, so the one that was given this key
   if any was, and this is that key if and only if its first half is the usual filling; the caller
   and that endpoint hold the two ends of one pair, crosswise; and no other call has the pair.
   */
  lemma NoAba(t: seq<State>, events: seq<Event>, n: nat, c: nat)
    requires Run(t, events) && n < |t| && c < |t[n].calls| && IsConnected(t[n].calls[c])
    ensures
      var s, call := t[n], t[n].calls[c];
      var w, e := call.pc.ended.wait, call.pc.ended.e;
      && e < |s.eps| && call.src < |s.eps| && Address(s.eps[e].uniq, s.eps[e].loc) == ParsePubKey(call.dst)
      && (forall i :: 0 <= i < |s.eps| && KeyOf(s.eps[i]) == call.dst ==> i == e)
      && (call.dst == KeyOf(s.eps[e]) <==> call.dst[..16] == FILL)
      && w.pubKey == call.dst && WaitCon(KeyOf(s.eps[call.src]), w.recvs, w.sends) in s.eps[e].inbox
      && (forall d :: 0 <= d < |s.calls| && d != c && IsConnected(s.calls[d]) ==>
            Disjoint(s.calls[d].pc.ended.wait, w))
  {
    RunKeeps(t, events, n);
    GenUndoesParse(t[n].calls[c].dst);
    TheKeysEndpoint(t[n], c);
    PairIsOwn(t[n], c);
  }

  lemma TheKeysEndpoint(s: State, c: nat)
    requires Inv(s) && c < |s.calls| && IsConnected(s.calls[c])
    ensures CallOk(s, s.calls[c])
    ensures forall i :: 0 <= i < |s.eps| && KeyOf(s.eps[i]) == s.calls[c].dst ==> i == s.calls[c].pc.ended.e
  {
    forall i | 0 <= i < |s.eps| && KeyOf(s.eps[i]) == s.calls[c].dst
      ensures i == s.calls[c].pc.ended.e
    {
      KeysAreUnique(s, i, s.calls[c].pc.ended.e);
    }
  }

  lemma PairIsOwn(s: State, c: nat)
    requires CallsOk(s) && c < |s.calls| && IsConnected(s.calls[c])
    ensures forall d :: 0 <= d < |s.calls| && d != c && IsConnected(s.calls[d]) ==>
              Disjoint(s.calls[d].pc.ended.wait, s.calls[c].pc.ended.wait)
  {
    assert CallOk(s, s.calls[c]);
    forall d | 0 <= d < |s.calls| && d != c && IsConnected(s.calls[d])
      ensures Disjoint(s.calls[d].pc.ended.wait, s.calls[c].pc.ended.wait)
    {
      assert CallOk(s, s.calls[d]);
    }
  }

  /** A call for a key with the address of endpoint e that has not gone wrong. */
  predicate OnTheWay(s: State, c: nat, e: nat) {
    && c < |s.calls| && e < |s.eps| && ParsePubKey(s.calls[c].dst) == Address(s.eps[e].uniq, s.eps[e].loc)
    && match s.calls[c].pc
       case Begun => true
       case Cloned(i) => i == e
       case Holding(i) => i == e
       case Done(Connected(_, i)) => i == e
       case Done(_) => false
  }

  /** Events of other calls and of endpoints do not touch the call. */
  lemma OthersLeaveIt(s: State, ev: Event, c: nat, e: nat)
    requires Inv(s) && Can(s, ev) && OnTheWay(s, c, e)
    requires ev != Lookup(c) && ev != Upgrade(c) && ev != Finish(c)
    ensures OnTheWay(Apply(s, ev), c, e)
  {
    assert Apply(s, ev).calls[c] == s.calls[c];
  }

  lemma StaysOnTheWay(s: State, ev: Event, c: nat, e: nat)
    requires Inv(s) && Can(s, ev) && OnTheWay(s, c, e)
    requires s.eps[e].phase == Live && s.eps[e].recvOpen
    ensures OnTheWay(Apply(s, ev), c, e)
  {
    if ev != Lookup(c) && ev != Upgrade(c) && ev != Finish(c) {
      OthersLeaveIt(s, ev, c, e);
    }
  }

  /** A call for any key with the address of an endpoint that stays up can only end by connecting to it. */
  lemma {:induction false} LiveTargetIsReached(t: seq<State>, events: seq<Event>, from: nat, n: nat, c: nat, e: nat)
    requires Run(t, events) && from <= n < |t|
    requires OnTheWay(t[from], c, e) && t[from].calls[c].pc == Begun
    requires forall k :: from <= k < n ==> e < |t[k].eps| && t[k].eps[e].phase == Live && t[k].eps[e].recvOpen
    ensures OnTheWay(t[n], c, e)
  {
    if from < n {
      LiveTargetIsReached(t, events, from, n - 1, c, e);
      RunKeeps(t, events, n - 1);
      StaysOnTheWay(t[n - 1], events[n - 1], c, e);
    }
  }

  lemma CallsPersist(s: State, ev: Event, c: nat)
    requires Can(s, ev) && c < |s.calls|
    ensures c < |Apply(s, ev).calls| && Apply(s, ev).calls[c].dst == s.calls[c].dst
  {
  }

  lemma EndpointsPersist(s: State, ev: Event, e: nat)
    requires Can(s, ev) && e < |s.eps|
    ensures
      var t := Apply(s, ev);
      e < |t.eps| && t.eps[e].uniq == s.eps[e].uniq && t.eps[e].loc == s.eps[e].loc
  {
  }

  lemma {:induction false} CallKeepsKey(t: seq<State>, events: seq<Event>, from: nat, n: nat, c: nat)
    requires Run(t, events) && from <= n < |t| && c < |t[from].calls|
    ensures c < |t[n].calls| && t[n].calls[c].dst == t[from].calls[c].dst
  {
    if from < n {
      CallKeepsKey(t, events, from, n - 1, c);
      CallsPersist(t[n - 1], events[n - 1], c);
    }
  }

  lemma {:induction false} AddressStays(t: seq<State>, events: seq<Event>, from: nat, n: nat, e: nat)
    requires Run(t, events) && from <= n < |t| && e < |t[from].eps|
    ensures e < |t[n].eps| && t[n].eps[e].uniq == t[from].eps[e].uniq && t[n].eps[e].loc == t[from].eps[e].loc
  {
    if from < n {
      AddressStays(t, events, from, n - 1, e);
      EndpointsPersist(t[n - 1], events[n - 1], e);
    }
  }

  /** While an endpoint stays up, the calls that connect to it are exactly those for a key with its address. */
  lemma ReachedByAddress(t: seq<State>, events: seq<Event>, from: nat, n: nat, c: nat, e: nat)
    requires Run(t, events) && from <= n < |t| && c < |t[from].calls| && t[from].calls[c].pc == Begun
    requires e < |t[from].eps|
    requires forall k :: from <= k < n ==> e < |t[k].eps| && t[k].eps[e].phase == Live && t[k].eps[e].recvOpen
    ensures c < |t[n].calls|
    ensures t[n].calls[c].pc.Done? ==>
              ((IsConnected(t[n].calls[c]) && t[n].calls[c].pc.ended.e == e) <==>
               ParsePubKey(t[from].calls[c].dst) == Address(t[from].eps[e].uniq, t[from].eps[e].loc))
  {
    CallKeepsKey(t, events, from, n, c);
    AddressStays(t, events, from, n, e);
    if ParsePubKey(t[from].calls[c].dst) == Address(t[from].eps[e].uniq, t[from].eps[e].loc) {
      LiveTargetIsReached(t, events, from, n, c, e);
    } else {
      RunKeeps(t, events, n);
      assert CallOk(t[n], t[n].calls[c]);
    }
  }

  /** A call is refused for the key of its own endpoint, and only for that. */
  predicate SelfOk(s: State, call: Call) {
    && call.src < |s.eps|
    && (call.pc == Done(ToSelf) <==> call.dst == GenPubKey(s.eps[call.src].uniq, s.eps[call.src].loc))
  }

  lemma SelfStays(s: State, ev: Event, c: nat)
    requires Can(s, ev) && c < |s.calls| && SelfOk(s, s.calls[c])
    ensures c < |Apply(s, ev).calls| && SelfOk(Apply(s, ev), Apply(s, ev).calls[c])
  {
    EndpointsPersist(s, ev, s.calls[c].src);
  }

  lemma SelfBegins(s: State, ev: Event)
    requires Can(s, ev) && |s.calls| < |Apply(s, ev).calls|
    ensures |Apply(s, ev).calls| == |s.calls| + 1 && SelfOk(Apply(s, ev), Apply(s, ev).calls[|s.calls|])
  {
  }

  lemma {:induction false} ToSelfIsOwnKey(t: seq<State>, events: seq<Event>, n: nat, c: nat)
    requires Run(t, events) && n < |t| && c < |t[n].calls|
    ensures
      var s, call := t[n], t[n].calls[c];
      && call.src < |s.eps|
      && (call.pc == Done(ToSelf) <==> call.dst == GenPubKey(s.eps[call.src].uniq, s.eps[call.src].loc))
  {
    if n > 0 {
      var s, e := t[n - 1], events[n - 1];
      assert Can(s, e) && t[n - 1 + 1] == Apply(s, e);
      if c < |s.calls| {
        ToSelfIsOwnKey(t, events, n - 1, c);
        SelfStays(s, e, c);
      } else {
        SelfBegins(s, e);
      }
    }
  }

  /**
   Why a call ends when it does, and what that leaves behind: only a call that connects puts
   anything into an inbox, and that is one end of a new pair.
   */
  lemma HowCallsEnd(s: State, ev: Event, c: nat)
    requires Inv(s) && Can(s, ev) && c < |s.calls| && !s.calls[c].pc.Done? && Apply(s, ev).calls[c].pc.Done?
    ensures
      var call, t := s.calls[c], Apply(s, ev);
      var a := ParsePubKey(call.dst);
      match t.calls[c].pc.ended
      case ToSelf => false
      case NoPeer => a.loc !in s.slab && t.eps == s.eps
      case PeerClosed => call.pc.Cloned? && s.eps[call.pc.e].phase != Live && t.eps == s.eps
      case WrongUniq => call.pc.Holding? && s.eps[call.pc.e].uniq != a.uniq && t.eps == s.eps
      case ChanClosed =>
        call.pc.Holding? && s.eps[call.pc.e].uniq == a.uniq && !s.eps[call.pc.e].recvOpen && t.eps == s.eps
      case Connected(w, e) =>
        && call.pc == Holding(e) && s.eps[e].uniq == a.uniq && s.eps[e].recvOpen
        && w == WaitCon(call.dst, 2 * s.pairs, 2 * s.pairs + 1) && t.pairs == s.pairs + 1
        && t.eps == s.eps[e := s.eps[e].(inbox := s.eps[e].inbox + [WaitCon(KeyOf(s.eps[call.src]), w.recvs, w.sends)])]
  {
    assert CallOk(s, s.calls[c]);
  }

  lemma ClosedStays(s: State, ev: Event, e: nat)
    requires Can(s, ev) && e < |s.eps| && !s.eps[e].recvOpen
    ensures
      var t := Apply(s, ev);
      e < |t.eps| && !t.eps[e].recvOpen && t.eps[e].inbox == s.eps[e].inbox
  {
  }

  /** Once the receiver of an endpoint is dropped, nothing more is handed to it in any run. */
  lemma {:induction false} ClosedGetsNothing(t: seq<State>, events: seq<Event>, from: nat, n: nat, e: nat)
    requires Run(t, events) && from <= n < |t| && e < |t[from].eps| && !t[from].eps[e].recvOpen
    ensures e < |t[n].eps| && !t[n].eps[e].recvOpen && t[n].eps[e].inbox == t[from].eps[e].inbox
  {
    if from < n {
      ClosedGetsNothing(t, events, from, n - 1, e);
      ClosedStays(t[n - 1], events[n - 1], e);
    }
  }

  /** The slab holds exactly the endpoints still to be removed; when all are, it is empty. */
  lemma SlabEmpties(t: seq<State>, events: seq<Event>, n: nat)
    requires Run(t, events) && n < |t|
    ensures forall i :: 0 <= i < |t[n].eps| ==>
              ((t[n].eps[i].loc in t[n].slab && t[n].slab[t[n].eps[i].loc] == i) <==> t[n].eps[i].phase != Gone)
    ensures t[n].slab == map[] <==> forall i :: 0 <= i < |t[n].eps| ==> t[n].eps[i].phase == Gone
  {
    RunKeeps(t, events, n);
    if forall i :: 0 <= i < |t[n].eps| ==> t[n].eps[i].phase == Gone {
      assert forall loc :: loc !in t[n].slab;
    }
  }

  /** Another key with the same address. */
  function Alias(k: Key): Key {
    k[0 := if k[0] == 0 then 1 else 0]
  }

  lemma AliasHasSameAddress(k: Key)
    ensures Alias(k) != k && ParsePubKey(Alias(k)) == ParsePubKey(k)
  {
    assert Alias(k)[16..24] == k[16..24] && Alias(k)[24..] == k[24..];
    assert Alias(k)[0] != k[0];
  }

  lemma Listening(loc: u64)
    ensures
      var s := Apply(INIT, FetchUniq);
      Can(INIT, FetchUniq) && Can(s, Insert(0, loc)) && Apply(s, Insert(0, loc)) == Alone(loc)
  {
    assert [1][..0] + [1][1..] == [] && [] + [Ep(1, loc, Live, true, [])] == [Ep(1, loc, Live, true, [])];
  }

  /** One endpoint, nothing else. */
  function Alone(loc: u64): State {
    State(map[loc := 0], [Ep(1, loc, Live, true, [])], [], 2, [], 0)
  }

  lemma CallingOneself(loc: u64, k: Key)
    requires ParsePubKey(k) == Address(1, loc) && k != GenPubKey(1, loc)
    ensures
      var s := Alone(loc);
      var s1 := Apply(s, Connect(0, k));
      && Can(s, Connect(0, k)) && Can(s1, Lookup(0))
      && var s2 := Apply(s1, Lookup(0));
         && Can(s2, Upgrade(0))
         && var s3 := Apply(s2, Upgrade(0));
            && Can(s3, Finish(0))
            && Apply(s3, Finish(0)).calls == [Call(0, k, Done(Connected(CallerWait(k, 0), 0)))]
  {
  }

  lemma RunSnoc(t: seq<State>, events: seq<Event>, e: Event) returns (u: seq<State>)
    requires Run(t, events) && Can(t[|t| - 1], e)
    ensures Run(u, events + [e]) && u[|u| - 1] == Apply(t[|t| - 1], e)
  {
    u := t + [Apply(t[|t| - 1], e)];
    forall n | 0 <= n < |events| + 1
      ensures Can(u[n], (events + [e])[n]) && u[n + 1] == Apply(u[n], (events + [e])[n])
    {
      if n < |events| {
        assert u[n] == t[n] && u[n + 1] == t[n + 1];
      }
    }
  }

  /**
   The check against connecting to oneself compares whole keys: an endpoint that is called by its
   own key with another first byte connects to itself.
   */
  lemma ConnectsToItself(loc: u64) returns (t: seq<State>)
    ensures
      var k := Alias(GenPubKey(1, loc));
      && Run(t, [FetchUniq] + [Insert(0, loc)] + [Connect(0, k)] + [Lookup(0)] + [Upgrade(0)] + [Finish(0)])
      && t[|t| - 1].calls == [Call(0, k, Done(Connected(CallerWait(k, 0), 0)))]
  {
    var k := Alias(GenPubKey(1, loc));
    AliasHasSameAddress(GenPubKey(1, loc));
    ParseUndoesGen(1, loc);
    Listening(loc);
    CallingOneself(loc, k);
    t := RunSnoc([INIT], [], FetchUniq);
    assert [] + [FetchUniq] == [FetchUniq];
    t := RunSnoc(t, [FetchUniq], Insert(0, loc));
    t := RunSnoc(t, [FetchUniq] + [Insert(0, loc)], Connect(0, k));
    t := RunSnoc(t, [FetchUniq] + [Insert(0, loc)] + [Connect(0, k)], Lookup(0));
    t := RunSnoc(t, [FetchUniq] + [Insert(0, loc)] + [Connect(0, k)] + [Lookup(0)], Upgrade(0));
    t := RunSnoc(t, [FetchUniq] + [Insert(0, loc)] + [Connect(0, k)] + [Lookup(0)] + [Upgrade(0)], Finish(0));
  }

  /**
   "Only the key that was returned for an endpoint reaches it" is false: as long as the endpoint
   stays up, a call for another key with the same address can only end by connecting to it.
   */
  lemma OtherKeysReachToo(t: seq<State>, events: seq<Event>, from: nat, n: nat, c: nat, e: nat)
    requires Run(t, events) && from <= n < |t|
    requires e < |t[from].eps| && c < |t[from].calls| && t[from].calls[c].pc == Begun
    requires t[from].calls[c].dst == Alias(KeyOf(t[from].eps[e]))
    requires forall k :: from <= k < n ==> e < |t[k].eps| && t[k].eps[e].phase == Live && t[k].eps[e].recvOpen
    ensures c < |t[n].calls| && (t[n].calls[c].pc.Done? ==> IsConnected(t[n].calls[c]) && t[n].calls[c].pc.ended.e == e)
    ensures t[from].calls[c].dst != KeyOf(t[from].eps[e])
  {
    var ep := t[from].eps[e];
    AliasHasSameAddress(KeyOf(ep));
    ParseUndoesGen(ep.uniq, ep.loc);
    LiveTargetIsReached(t, events, from, n, c, e);
  }

  // ----- the registry

  /** The slab under its lock, and the endpoints it refers to. */
  class Stat {
    var store: map<u64, nat>
    var eps: seq<Ep>
    var pending: seq<u64>
    var nextUniq: nat
    ghost var calls: seq<Call>
    var pairs: nat

    ghost function Model(): State
      reads this
    {
      State(store, eps, pending, nextUniq, calls, pairs)
    }

    constructor ()
      ensures Model() == INIT
    {
      store, eps, pending, nextUniq, calls, pairs := map[], [], [], 1, [], 0;
    }

    /** The part of `listen` under the lock, in the vacant slot the slab chose. */
    method Listen(p: nat, loc: u64) returns (e: nat, key: Key)
      requires Can(Model(), Insert(p, loc))
      modifies this
      ensures Model() == Apply(old(Model()), Insert(p, loc))
      ensures e == |old(eps)| && key == KeyOf(eps[e])
    {
      e, key := |eps|, GenPubKey(pending[p], loc);
      store := store[loc := e];
      eps := eps + [Ep(pending[p], loc, Live, true, [])];
      pending := pending[..p] + pending[p + 1..];
    }

    /** Run by `drop` with the endpoint's own number and slot. */
    method RemoveEp(i: nat)
      requires Can(Model(), Remove(i)) && forall loc :: loc in store ==> store[loc] < |eps|
      modifies this
      ensures Model() == Apply(old(Model()), Remove(i))
    {
      var uniq, loc := eps[i].uniq, eps[i].loc;
      if loc in store {
        var ep := eps[store[loc]];
        if ep.phase == Live {
          if ep.uniq == uniq {
            store := store - {loc};
          }
        } else {
          store := store - {loc};
        }
      }
      eps := eps[i := eps[i].(phase := Gone)];
    }

    /** The first step of `connect`: clone the weak reference under the lock. */
    method LookupEp(dst: Key) returns (e: Option<nat>)
      ensures e == var loc := ParsePubKey(dst).loc; if loc in store then Some(store[loc]) else None
    {
      var loc := ParsePubKey(dst).loc;
      if loc in store {
        e := Some(store[loc]);
      } else {
        e := None;
      }
    }

    /** The last step, with the endpoint upgraded: make the two pairs and hand one end over. */
    method FinishConnect(ghost c: nat, src: nat, dst: Key, e: nat) returns (r: Ended)
      requires Can(Model(), Finish(c)) && calls[c].src == src && calls[c].dst == dst && calls[c].pc == Holding(e)
      modifies this
      ensures Model() == Apply(old(Model()), Finish(c)) && calls[c].pc == Done(r)
    {
      var ep := eps[e];
      if ep.uniq != ParsePubKey(dst).uniq {
        r := WrongUniq;
      } else {
        var callerWait := WaitCon(dst, 2 * pairs, 2 * pairs + 1);
        var targetWait := WaitCon(KeyOf(eps[src]), 2 * pairs + 1, 2 * pairs);
        pairs := pairs + 1;
        if !ep.recvOpen {
          r := ChanClosed;
        } else {
          eps := eps[e := ep.(inbox := ep.inbox + [targetWait])];
          r := Connected(callerWait, e);
        }
      }
      calls := calls[c := calls[c].(pc := Done(r))];
    }
  }
}

/**
 The caching lock protocol never gets stuck: as long as a thread waits and no
 thread has the lock, some step of the protocol itself can be taken, and only
 boundedly many such steps can be taken before a thread has the lock.
 */
module LockProgress {
  import opened Options
  import C = LockClientCache
  import S = LockServerCache
  import E = ExtentClient
  import opened LockProtocol
  import opened LockInvariant
  import opened LockSteps
  import opened LockTheorems
  import opened LockRefinement

  /** Steps that the protocol takes by itself; the others are calls of the user. */
  predicate Internal(act: Act) {
    !act.Enter? && !act.BeginRelease? && !UsesFile(act)
  }

  ghost predicate CanMove(s: State) {
    exists l :: Enabled(s, l) && Internal(l.act)
  }

  /** Some thread is inside acquire or release. */
  ghost predicate SomeoneWaits(s: State) {
    exists c, t :: c in s.nodes && t in s.nodes[c].pc && s.nodes[c].pc[t] != Idle && !s.nodes[c].pc[t].Held?
  }

  // No deadlock.

  /** The step of its own that a client can take, if it is not waiting for others. */
  function OwnMove(n: Node): Option<Act> {
    if n.revokes > 0 then Some(TakeRevoke)
    else if n.retries > 0 then Some(TakeRetry)
    else if n.handlers != [] then
      match n.handlers[0]
      case SyncStart => Some(Invalidate(Handler(0)))
      case SyncWrite => Some(WriteBack(Handler(0)))
      case ReleaseSent => Some(ServeRelease(Handler(0)))
      case _ => Some(EndRelease(Handler(0)))
    else if n.lk.queue == [] || n.lk.queue[0] !in n.pc then None
    else
      var t := n.lk.queue[0];
      match n.pc[t]
      case AcquireSent => Some(ServeAcquire(t))
      case AcquireGranted => Some(TakeAnswer(t))
      case AcquireRefused => Some(TakeAnswer(t))
      case SyncStart => Some(Invalidate(Thread(t)))
      case SyncWrite => Some(WriteBack(Thread(t)))
      case ReleaseSent => Some(ServeRelease(Thread(t)))
      case ReleaseDone => Some(EndRelease(Thread(t)))
      case Held(_) => None
      case p => if Asleep(p) && p.woken then Some(Wake(t)) else None
  }

  /** The front thread has the lock. */
  predicate FrontHolds(n: Node) {
    n.lk.queue != [] && n.lk.queue[0] in n.pc && n.pc[n.lk.queue[0]].Held?
  }

  lemma OwnMoveWorks(r: Role, n: Node)
    requires NodeInv(r, n)
    ensures OwnMove(n).Some? ==> CanAct(n, OwnMove(n).value) && Internal(OwnMove(n).value)
    ensures OwnMove(n).None? && n.lk.queue != [] ==> r == Queued || FrontHolds(n)
    ensures OwnMove(n).None? ==> r != Chosen && (r == Owner(true) ==> FrontHolds(n))
  {
  }

  lemma NodeMove(s: State, last: E.Bytes, c: ClientId)
    requires Inv(s, last) && c in s.nodes && !CanMove(s)
    ensures OwnMove(s.nodes[c]).None?
    ensures s.nodes[c].lk.queue != [] ==> RoleOf(s.server, c) == Queued || FrontHolds(s.nodes[c])
    ensures RoleOf(s.server, c) != Chosen && (RoleOf(s.server, c) == Owner(true) ==> FrontHolds(s.nodes[c]))
  {
    assert NodeOk(s, last, c);
    OwnMoveWorks(RoleOf(s.server, c), s.nodes[c]);
    if OwnMove(s.nodes[c]).Some? {
      assert Enabled(s, Label(c, OwnMove(s.nodes[c]).value));
    }
  }

  /** A queued client is waiting for someone who can move or has the lock. */
  lemma QueuedWaitsForHolder(s: State, last: E.Bytes, c: ClientId)
    requires Inv(s, last) && !CanMove(s) && c in s.server.waiting
    ensures SomeoneHolds(s)
  {
    var d := if s.server.state == S.Revoking then s.server.holding.value else s.server.retrying.value;
    NodeMove(s, last, d);
    assert HoldsLock(s, d, s.nodes[d].lk.queue[0]);
  }

  lemma WaiterQueues(s: State, last: E.Bytes, c: ClientId, t: Tid)
    requires Inv(s, last) && c in s.nodes && t in s.nodes[c].pc && s.nodes[c].pc[t] != Idle
    ensures s.nodes[c].lk.queue != []
  {
    assert NodeOk(s, last, c);
  }

  /** If nothing can move while a thread waits, some thread has the lock. */
  lemma NoDeadlock(s: State, last: E.Bytes)
    requires Inv(s, last) && SomeoneWaits(s) && !CanMove(s)
    ensures SomeoneHolds(s)
  {
    var c, t :| c in s.nodes && t in s.nodes[c].pc && s.nodes[c].pc[t] != Idle && !s.nodes[c].pc[t].Held?;
    WaiterQueues(s, last, c, t);
    NodeMove(s, last, c);
    if FrontHolds(s.nodes[c]) {
      assert HoldsLock(s, c, s.nodes[c].lk.queue[0]);
    } else {
      QueuedWaitsForHolder(s, last, c);
    }
  }

  // No endless chatter.

  /** How far an owner is from knowing that it has to give the lock back. */
  function Unaware(r: Role, n: Node): nat {
    if r == Owner(false) then 2 else if n.lk.response == C.Revoke then 0 else 1
  }

  /** The number of internal steps that a client can still take, at most. */
  function Rank(r: Role, n: Node): nat {
    var p := if n.lk.queue != [] && n.lk.queue[0] in n.pc then n.pc[n.lk.queue[0]] else Idle;
    match n.lk.state
    case Absent => if n.lk.queue == [] then 0 else 14
    case Free => 19 + Unaware(r, n)
    case Locked => Unaware(r, n) + if p.Held? then 0 else 3
    case Acquiring =>
      (match p
       case AcquireSent => if r == Chosen then 6 else 13
       case AcquireGranted => 3 + Unaware(r, n)
       case AcquireRefused => if r != Chosen then 12 else if n.lk.response == C.Retry then 9 else 10
       case _ => if r != Chosen then 11 else if n.lk.response == C.Retry then 7 else 8)
    case Releasing =>
      (match Progress(n)
       case SyncStart => 18
       case SyncWrite => 17
       case ReleaseSent => 16
       case _ => 15)
  }

  const MAX_RANK := 21

  lemma LocalRankFalls(r: Role, n: Node, act: Act, e: E.Extent)
    requires NodeInv(r, n) && CanAct(n, act) && Internal(act) && Local(act)
    ensures Rank(r, LocalStep(n, act, e, false)) < Rank(r, n)
  {
    match act {
      case Wake(_) => FrontRankFalls(r, n, act, e);
      case TakeAnswer(_) => FrontRankFalls(r, n, act, e);
      case Invalidate(a) => ActorRole(r, n, a); MoveActorKeeps(r, n, a, SyncWrite);
      case EndRelease(a) => EndRankFalls(r, n, a);
      case TakeRevoke => CallbackRankFalls(r, n, act, e);
      case TakeRetry => CallbackRankFalls(r, n, act, e);
    }
  }

  lemma FrontRankFalls(r: Role, n: Node, act: Act, e: E.Extent)
    requires NodeInv(r, n) && CanAct(n, act) && (act.Wake? || act.TakeAnswer?)
    ensures Rank(r, LocalStep(n, act, e, false)) < Rank(r, n)
  {
    WokenIsFront(r, n, act.t);
  }

  lemma CallbackRankFalls(r: Role, n: Node, act: Act, e: E.Extent)
    requires NodeInv(r, n) && CanAct(n, act) && (act.TakeRevoke? || act.TakeRetry?)
    ensures Rank(r, LocalStep(n, act, e, false)) < Rank(r, n)
  {
  }

  lemma EndRankFalls(r: Role, n: Node, a: Actor)
    requires NodeInv(r, n) && CanAct(n, EndRelease(a))
    ensures Rank(r, EndActor(n, a)) < Rank(r, n)
  {
    ActorRole(r, n, a);
    EndReleaseKeeps(r, n, a);
    if a.Thread? {
      WokenIsFront(r, n, a.t);
    }
  }

  lemma WriteBackRankFalls(r: Role, n: Node, a: Actor, e: E.Extent)
    requires NodeInv(r, n) && CanAct(n, WriteBack(a))
    ensures Rank(r, LocalStep(n, WriteBack(a), e, false)) < Rank(r, n)
  {
    ActorRole(r, n, a);
    MoveActorKeeps(r, n, a, ReleaseSent);
  }

  lemma AnswerRankFalls(r: Role, n: Node, n': Node, t: Tid, granted: bool, revoke: bool)
    requires NodeInv(r, n) && CanAct(n, ServeAcquire(t))
    requires !granted ==> r == Stranger
    requires n'.lk == n.lk && n'.pc == n.pc[t := if granted then AcquireGranted else AcquireRefused]
    ensures Rank(if granted then Owner(revoke) else Queued, n') < Rank(r, n)
  {
    WokenIsFront(r, n, t);
  }

  lemma HandedOverRankFalls(n: Node, a: Actor)
    requires NodeInv(Owner(true), n) && HasActor(n, a) && ActorPc(n, a) == ReleaseSent
    ensures Rank(Stranger, MoveActor(n, a, ReleaseDone)) < Rank(Owner(true), n)
  {
    ActorRole(Owner(true), n, a);
    if a.Thread? {
      WokenIsFront(Owner(true), n, a.t);
    }
  }

  lemma CalledRankFalls(n: Node, n': Node)
    requires n'.lk == n.lk && n'.pc == n.pc && n'.handlers == n.handlers
    ensures NodeInv(Owner(false), n) ==> Rank(Owner(true), n') <= Rank(Owner(false), n)
    ensures NodeInv(Queued, n) ==> Rank(Chosen, n') <= Rank(Queued, n)
    ensures forall r :: Rank(r, n') == Rank(r, n)
  {
  }

  function RankAt(s: State, c: ClientId): nat
    requires c in s.nodes
  {
    Rank(RoleOf(s.server, c), s.nodes[c])
  }

  lemma CallerRankOnAcquire(s: State, last: E.Bytes, l: Label)
    requires ServerInv(s.server, s.nodes.Keys) && Enabled(s, l) && l.act.ServeAcquire? && NodeOk(s, last, l.c)
    ensures l.c in Step(s, l).nodes && RankAt(Step(s, l), l.c) < RankAt(s, l.c)
  {
    CallerAfterAcquire(s, l, last);
    AcquireRoles(s, l.c);
    StepAt(s, l, l.c);
    var a := S.Acquire(s.server, l.c);
    AnswerRankFalls(RoleOf(s.server, l.c), s.nodes[l.c], Step(s, l).nodes[l.c],
                    l.act.t, a.granted, a.revoke == Some(l.c));
  }

  lemma OtherRankOnAcquire(s: State, last: E.Bytes, l: Label, d: ClientId)
    requires ServerInv(s.server, s.nodes.Keys) && Enabled(s, l) && l.act.ServeAcquire? && d in s.nodes && d != l.c
    requires RoleOf(s.server, l.c) == Stranger || RoleOf(s.server, l.c) == Chosen
    requires NodeOk(s, last, d)
    ensures d in Step(s, l).nodes && RankAt(Step(s, l), d) <= RankAt(s, d)
  {
    AcquireRoles(s, l.c);
    StepAt(s, l, d);
    CalledRankFalls(s.nodes[d], Step(s, l).nodes[d]);
  }

  lemma CallerRankOnRelease(s: State, last: E.Bytes, l: Label)
    requires ServerInv(s.server, s.nodes.Keys) && Enabled(s, l) && l.act.ServeRelease? && NodeOk(s, last, l.c)
    ensures l.c in Step(s, l).nodes && RankAt(Step(s, l), l.c) < RankAt(s, l.c)
  {
    CallerAfterRelease(s, l, last);
    ReleaseRoles(s, l.c);
    StepAt(s, l, l.c);
    HandedOverRankFalls(s.nodes[l.c], l.act.a);
    CalledRankFalls(MoveActor(s.nodes[l.c], l.act.a, ReleaseDone), Step(s, l).nodes[l.c]);
  }

  lemma OtherRankOnRelease(s: State, last: E.Bytes, l: Label, d: ClientId)
    requires ServerInv(s.server, s.nodes.Keys) && Enabled(s, l) && l.act.ServeRelease? && d in s.nodes && d != l.c
    requires RoleOf(s.server, l.c) == Owner(true) && NodeOk(s, last, d)
    ensures d in Step(s, l).nodes && RankAt(Step(s, l), d) <= RankAt(s, d)
  {
    ReleaseRoles(s, l.c);
    StepAt(s, l, d);
    CalledRankFalls(s.nodes[d], Step(s, l).nodes[d]);
  }

  lemma OwnRank(s: State, last: E.Bytes, l: Label)
    requires Inv(s, last) && Enabled(s, l) && Internal(l.act)
    ensures l.c in Step(s, l).nodes && RankAt(Step(s, l), l.c) < RankAt(s, l.c)
  {
    assert NodeOk(s, last, l.c);
    if l.act.ServeAcquire? {
      CallerRankOnAcquire(s, last, l);
    } else if l.act.ServeRelease? {
      CallerRankOnRelease(s, last, l);
    } else if l.act.WriteBack? {
      WriteBackRankFalls(RoleOf(s.server, l.c), s.nodes[l.c], l.act.a, s.extent);
    } else {
      LocalRankFalls(RoleOf(s.server, l.c), s.nodes[l.c], l.act, s.extent);
    }
  }

  lemma OtherRank(s: State, last: E.Bytes, l: Label, d: ClientId)
    requires Inv(s, last) && Enabled(s, l) && d in s.nodes && d != l.c
    ensures d in Step(s, l).nodes && RankAt(Step(s, l), d) <= RankAt(s, d)
  {
    assert NodeOk(s, last, l.c) && NodeOk(s, last, d);
    if l.act.ServeAcquire? {
      CallerAfterAcquire(s, l, last);
      OtherRankOnAcquire(s, last, l, d);
    } else if l.act.ServeRelease? {
      CallerAfterRelease(s, l, last);
      OtherRankOnRelease(s, last, l, d);
    }
  }

  /** An internal step brings its own client forward and no other back. */
  lemma StepRanks(s: State, last: E.Bytes, l: Label, d: ClientId)
    requires Inv(s, last) && Enabled(s, l) && Internal(l.act) && d in s.nodes
    ensures d in Step(s, l).nodes && RankAt(Step(s, l), d) <= RankAt(s, d)
    ensures d == l.c ==> RankAt(Step(s, l), d) < RankAt(s, d)
  {
    if d == l.c {
      OwnRank(s, last, l);
    } else {
      OtherRank(s, last, l, d);
    }
  }

  // Adding up.

  ghost function Sum(m: map<ClientId, nat>): nat
    decreases m.Keys
  {
    if m.Keys == {} then 0
    else
      var c :| c in m.Keys;
      m[c] + Sum(m - {c})
  }

  lemma {:induction false} SumSplit(m: map<ClientId, nat>, c: ClientId)
    requires c in m
    ensures Sum(m) == m[c] + Sum(m - {c})
    decreases m.Keys
  {
    var p :| p in m.Keys && Sum(m) == m[p] + Sum(m - {p});
    if p != c {
      SumSplit(m - {p}, c);
      SumSplit(m - {c}, p);
      assert m - {p} - {c} == m - {c} - {p};
    }
  }

  lemma {:induction false} SumLess(m: map<ClientId, nat>, m': map<ClientId, nat>)
    requires m.Keys == m'.Keys && forall c :: c in m ==> m'[c] <= m[c]
    ensures Sum(m') <= Sum(m)
    decreases m.Keys
  {
    if m.Keys != {} {
      var c :| c in m.Keys;
      SumSplit(m, c);
      SumSplit(m', c);
      SumLess(m - {c}, m' - {c});
    }
  }

  lemma SumStrictlyLess(m: map<ClientId, nat>, m': map<ClientId, nat>, c: ClientId)
    requires m.Keys == m'.Keys && (forall d :: d in m ==> m'[d] <= m[d]) && c in m && m'[c] < m[c]
    ensures Sum(m') < Sum(m)
  {
    SumSplit(m, c);
    SumSplit(m', c);
    SumLess(m - {c}, m' - {c});
  }

  lemma {:induction false} SumBounded(m: map<ClientId, nat>)
    requires forall c :: c in m ==> m[c] <= MAX_RANK
    ensures Sum(m) <= MAX_RANK * |m|
    decreases m.Keys
  {
    if m.Keys != {} {
      var c :| c in m.Keys && Sum(m) == m[c] + Sum(m - {c});
      SumBounded(m - {c});
      assert (m - {c}).Keys == m.Keys - {c};
    }
  }

  function Ranks(s: State): (m: map<ClientId, nat>)
    ensures m.Keys == s.nodes.Keys && forall c :: c in m ==> m[c] <= MAX_RANK
  {
    map c | c in s.nodes :: RankAt(s, c)
  }

  ghost function Total(s: State): nat {
    Sum(Ranks(s))
  }

  lemma KeysKept(s: State, l: Label)
    requires Enabled(s, l)
    ensures Step(s, l).nodes.Keys == s.nodes.Keys
  {
  }

  lemma RankMapFalls(s: State, last: E.Bytes, l: Label, d: ClientId)
    requires Inv(s, last) && Enabled(s, l) && Internal(l.act) && d in s.nodes
    ensures d in Ranks(Step(s, l)) && Ranks(Step(s, l))[d] <= Ranks(s)[d]
    ensures d == l.c ==> Ranks(Step(s, l))[d] < Ranks(s)[d]
  {
    StepRanks(s, last, l, d);
  }

  lemma TotalFalls(s: State, last: E.Bytes, l: Label)
    requires Inv(s, last) && Enabled(s, l) && Internal(l.act)
    ensures Total(Step(s, l)) < Total(s)
  {
    KeysKept(s, l);
    forall c | c in Ranks(s)
      ensures Ranks(Step(s, l))[c] <= Ranks(s)[c]
    {
      RankMapFalls(s, last, l, c);
    }
    RankMapFalls(s, last, l, l.c);
    SumStrictlyLess(Ranks(s), Ranks(Step(s, l)), l.c);
  }

  ghost predicate InternalRun(s: State, ls: seq<Label>) {
    Run(s, ls) && forall k :: 0 <= k < |ls| ==> Internal(ls[k].act)
  }

  lemma {:induction false} InternalRunShort(s: State, last: E.Bytes, ls: seq<Label>)
    requires Inv(s, last) && InternalRun(s, ls)
    ensures Inv(After(s, ls), last) && Total(After(s, ls)) + |ls| <= Total(s)
    decreases |ls|
  {
    if ls != [] {
      assert Internal(Last(ls).act);
      InternalRunShort(s, last, Most(ls));
      StepKeeps(After(s, Most(ls)), Last(ls), last);
      TotalFalls(After(s, Most(ls)), last, Last(ls));
    }
  }

  lemma {:induction false} ClientsStay(s: State, ls: seq<Label>)
    requires Run(s, ls)
    ensures After(s, ls).nodes.Keys == s.nodes.Keys
    decreases |ls|
  {
    if ls != [] {
      ClientsStay(s, Most(ls));
      KeysKept(After(s, Most(ls)), Last(ls));
    }
  }

  lemma TotalBounded(s: State)
    ensures Total(s) <= MAX_RANK * |s.nodes|
  {
    SumBounded(Ranks(s));
    assert |Ranks(s)| == |Ranks(s).Keys| == |s.nodes.Keys| == |s.nodes|;
  }

  /** From every reachable state the protocol can take only boundedly many steps of
      its own, and where it comes to rest, a thread has the lock or none waits. */
  lemma LockGoesOn(s: State, ls: seq<Label>, more: seq<Label>)
    requires Initial(s) && Run(s, ls) && InternalRun(After(s, ls), more)
    ensures |more| <= MAX_RANK * |s.nodes|
    ensures !CanMove(After(After(s, ls), more)) && SomeoneWaits(After(After(s, ls), more))
            ==> SomeoneHolds(After(After(s, ls), more))
  {
    var here, last := After(s, ls), LastPut(ls, s.extent.bytes);
    RunKeeps(s, ls);
    InternalRunShort(here, last, more);
    TotalBounded(here);
    ClientsStay(s, ls);
    assert |here.nodes| == |here.nodes.Keys| == |s.nodes|;
    var rest := After(here, more);
    if !CanMove(rest) && SomeoneWaits(rest) {
      NoDeadlock(rest, last);
    }
  }
}

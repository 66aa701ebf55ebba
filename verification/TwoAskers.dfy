/**
 Two threads of one client that both ask the server for the lock, after one of them
 has woken up unasked while no thread of the client had the lock.  The server grants
 the lock once; as long as the other thread is inside, the client never gives it
 back, so that the lock goes round among the threads of this client only.
 */
module TwoAskers {
  import opened Options
  import C = LockClientCache
  import S = LockServerCache
  import E = ExtentClient
  import opened LockProtocol
  import opened LockInvariant
  import opened LockSteps
  import opened UnaskedWakeup

  /** Asking the server, or about to, or about to hear that it has to wait. */
  predicate Asking(p: Pc) {
    p == ForRelease(true) || p == AcquireSent || p == AcquireRefused || p.ForRetry?
  }

  /** Has the lock, or has been told that it may go on. */
  predicate Active(p: Pc) {
    p == AcquireGranted || p.Held? || p == ForTurn(true)
  }

  function Inside(pc: map<Tid, Pc>): set<Tid> {
    set t | t in pc && pc[t] != Idle
  }

  /** As many entries in the queue as threads inside, whosever they are; nobody gives the lock back. */
  predicate Counted(n: Node) {
    n.handlers == [] && |n.lk.queue| == |Inside(n.pc)|
  }

  /** Before the grant: `y` at the head and `z` behind it. */
  ghost predicate BothAsk(n: Node, y: Tid, z: Tid) {
    && Counted(n) && n.lk.state == C.Acquiring && n.lk.queue != [] && n.lk.queue[0] == y
    && y != z && y in n.pc && z in n.pc && Asking(n.pc[y]) && Asking(n.pc[z])
    && forall u :: u in n.pc && u != y && u != z ==> n.pc[u] == Idle || n.pc[u] == ForTurn(false)
  }

  predicate Passive(p: Pc) {
    p == Idle || p == ForTurn(false) || p == Failed
  }

  /** After the grant: `y` still asks, or has failed; at most one other thread is active,
      and then the thread at the head of the queue is that one or `y`. */
  ghost predicate Settled(pc: map<Tid, Pc>, head: Tid, y: Tid) {
    && y in pc && (Asking(pc[y]) || pc[y] == Failed)
    && (forall u :: u in pc && u != y ==> Passive(pc[u]) || Active(pc[u]))
    && (forall u, v :: u in pc && v in pc && Active(pc[u]) && Active(pc[v]) ==> u == v)
    && (forall u :: u in pc && Active(pc[u]) ==> head == y || head == u)
  }

  ghost predicate OneAsks(n: Node, y: Tid) {
    && Counted(n) && (n.lk.state == C.Acquiring || n.lk.state == C.Locked) && n.lk.queue != []
    && Settled(n.pc, n.lk.queue[0], y)
  }

  // Counting the threads inside.

  lemma InsideStays(pc: map<Tid, Pc>, t: Tid, p: Pc)
    requires t in pc && pc[t] != Idle && p != Idle
    ensures Inside(pc[t := p]) == Inside(pc)
  {
  }

  lemma InsideGrows(pc: map<Tid, Pc>, t: Tid, p: Pc)
    requires t in pc && pc[t] == Idle && p != Idle
    ensures |Inside(pc[t := p])| == |Inside(pc)| + 1
  {
    assert Inside(pc[t := p]) == Inside(pc) + {t};
  }

  lemma InsideShrinks(pc: map<Tid, Pc>, t: Tid)
    requires t in pc && pc[t] != Idle
    ensures |Inside(pc[t := Idle])| == |Inside(pc)| - 1
  {
    assert Inside(pc[t := Idle]) == Inside(pc) - {t} && t in Inside(pc);
  }

  lemma InsideSignal(pc: map<Tid, Pc>, target: Option<Tid>)
    ensures Inside(Signal(pc, target)) == Inside(pc)
  {
  }

  lemma TwoInside(n: Node, y: Tid, u: Tid)
    requires Counted(n) && y in n.pc && u in n.pc && y != u && n.pc[y] != Idle && n.pc[u] != Idle
    ensures |n.lk.queue| >= 2
  {
    assert y in Inside(n.pc) && u in Inside(n.pc) - {y};
    assert |Inside(n.pc) - {y}| >= 1;
  }

  // Before the grant.

  lemma BothGoOn(n: Node, y: Tid, z: Tid, t: Tid, p: Pc, response: C.Response)
    requires BothAsk(n, y, z) && (t == y || t == z) && Asking(p)
    ensures BothAsk(n.(lk := n.lk.(response := response), pc := n.pc[t := p]), y, z)
  {
    InsideStays(n.pc, t, p);
  }

  lemma BothAskRetried(n: Node, y: Tid, z: Tid)
    requires BothAsk(n, y, z)
    ensures BothAsk(n.(lk := n.lk.(response := C.Retry), pc := Signal(n.pc, C.Front(n.lk.queue))), y, z)
  {
    InsideSignal(n.pc, C.Front(n.lk.queue));
  }

  lemma BothAskKeeps(n: Node, y: Tid, z: Tid, act: Act, e: E.Extent)
    requires BothAsk(n, y, z) && CanAct(n, act)
    ensures BothAsk(LocalStep(n, act, e, false), y, z)
  {
    var n' := LocalStep(n, act, e, false);
    match act {
      case Enter(t) => InsideGrows(n.pc, t, ForTurn(false));
      case Wake(t) => BothGoOn(n, y, z, t, AcquireSent, n'.lk.response);
      case ServeAcquire(t) => BothGoOn(n, y, z, t, AcquireRefused, n'.lk.response);
      case TakeAnswer(t) => BothGoOn(n, y, z, t, n'.pc[t], n'.lk.response);
      case TakeRevoke =>
      case TakeRetry => BothAskRetried(n, y, z);
    }
  }

  lemma AskersAre(n: Node, y: Tid, z: Tid, t: Tid)
    requires BothAsk(n, y, z) && t in n.pc && n.pc[t] == AcquireSent
    ensures t == y || t == z
  {
  }

  lemma GrantSettles(n: Node, y: Tid, z: Tid, t: Tid)
    requires BothAsk(n, y, z) && (t == y || t == z)
    ensures Settled(n.pc[t := AcquireGranted], y, if t == y then z else y)
  {
  }

  lemma GrantToOne(n: Node, y: Tid, z: Tid, t: Tid, e: E.Extent)
    requires BothAsk(n, y, z) && CanAct(n, ServeAcquire(t))
    ensures (t == y || t == z) && OneAsks(LocalStep(n, ServeAcquire(t), e, true), if t == y then z else y)
  {
    AskersAre(n, y, z, t);
    GrantSettles(n, y, z, t);
    InsideStays(n.pc, t, AcquireGranted);
  }

  // After the grant.

  /** A thread that gets no nearer to the lock. */
  lemma SettledPassive(pc: map<Tid, Pc>, head: Tid, y: Tid, t: Tid, p: Pc)
    requires Settled(pc, head, y) && t in pc
    requires if t == y then Asking(p) || p == Failed else Passive(p)
    ensures Settled(pc[t := p], head, y)
  {
  }

  lemma SettledActive(pc: map<Tid, Pc>, head: Tid, y: Tid, t: Tid, p: Pc)
    requires Settled(pc, head, y) && t in pc && Active(pc[t]) && Active(p)
    ensures Settled(pc[t := p], head, y)
  {
  }

  lemma SettledSignal(pc: map<Tid, Pc>, head: Tid, y: Tid)
    requires Settled(pc, head, y)
    ensures Settled(Signal(pc, Some(head)), head, y)
  {
    if head in pc && Asleep(pc[head]) {
      var p := pc[head].(woken := true);
      if head == y {
        SettledPassive(pc, head, y, y, p);
      } else {
        assert forall u :: u in pc && Active(pc[u]) ==> u == head;
      }
    }
  }

  /** The active thread leaves; whoever is at the head then is signalled. */
  lemma SettledLeave(pc: map<Tid, Pc>, head: Tid, y: Tid, u: Tid, head': Tid)
    requires Settled(pc, head, y) && u in pc && Active(pc[u])
    ensures Settled(Signal(pc[u := Idle], Some(head')), head', y)
  {
    SettledPassive(pc, head, y, u, Idle);
    var left := pc[u := Idle];
    assert forall v :: v in left ==> !Active(left[v]);
    SettledSignal(left, head', y);
  }

  lemma HandOverAmong(n: Node, y: Tid, u: Tid)
    requires OneAsks(n, y) && u in n.pc && n.pc[u].Held?
    ensures !C.MustGiveBack(n.lk)
    ensures var s := C.ReleaseLocally(n.lk);
            OneAsks(n.(lk := s.lk, pc := Signal(n.pc[u := Idle], s.signalled)), y)
  {
    TwoInside(n, y, u);
    InsideShrinks(n.pc, u);
    InsideSignal(n.pc[u := Idle], C.ReleaseLocally(n.lk).signalled);
    SettledLeave(n.pc, n.lk.queue[0], y, u, n.lk.queue[1]);
  }

  /** A step of one thread that stays inside. */
  lemma OneAsksMove(n: Node, y: Tid, t: Tid, p: Pc, lk: C.ClientLock)
    requires OneAsks(n, y) && t in n.pc && n.pc[t] != Idle && p != Idle
    requires lk.queue == n.lk.queue && (lk.state == C.Acquiring || lk.state == C.Locked)
    requires if t == y then Asking(p) || p == Failed else Active(n.pc[t]) && (Active(p) || p == Failed)
    ensures OneAsks(n.(lk := lk, pc := n.pc[t := p]), y)
  {
    InsideStays(n.pc, t, p);
    if t == y || p == Failed {
      SettledPassive(n.pc, n.lk.queue[0], y, t, p);
    } else {
      SettledActive(n.pc, n.lk.queue[0], y, t, p);
    }
  }

  lemma OneMoreBehind(n: Node, y: Tid, t: Tid)
    requires OneAsks(n, y) && t in n.pc && n.pc[t] == Idle
    ensures OneAsks(n.(lk := n.lk.(queue := n.lk.queue + [t]), pc := n.pc[t := ForTurn(false)]), y)
  {
    InsideGrows(n.pc, t, ForTurn(false));
    SettledPassive(n.pc, n.lk.queue[0], y, t, ForTurn(false));
    assert (n.lk.queue + [t])[0] == n.lk.queue[0];
  }

  lemma OneGoesOn(n: Node, y: Tid, act: Act, e: E.Extent)
    requires OneAsks(n, y) && CanAct(n, act) && (act.Wake? || act.ServeAcquire? || act.TakeAnswer? || act.Get?)
    ensures OneAsks(LocalStep(n, act, e, false), y)
  {
    var n' := LocalStep(n, act, e, false);
    OneAsksMove(n, y, act.t, n'.pc[act.t], n'.lk);
  }

  lemma OneAsksRetried(n: Node, y: Tid)
    requires OneAsks(n, y)
    ensures OneAsks(n.(lk := n.lk.(response := C.Retry), pc := Signal(n.pc, C.Front(n.lk.queue))), y)
  {
    InsideSignal(n.pc, C.Front(n.lk.queue));
    SettledSignal(n.pc, n.lk.queue[0], y);
  }

  lemma OneAsksKeeps(n: Node, y: Tid, act: Act, e: E.Extent)
    requires OneAsks(n, y) && CanAct(n, act)
    ensures OneAsks(LocalStep(n, act, e, false), y)
  {
    match act {
      case Enter(t) => OneMoreBehind(n, y, t);
      case Wake(_) => OneGoesOn(n, y, act, e);
      case ServeAcquire(_) => OneGoesOn(n, y, act, e);
      case TakeAnswer(_) => OneGoesOn(n, y, act, e);
      case Get(_, _) => OneGoesOn(n, y, act, e);
      case BeginRelease(t) => HandOverAmong(n, y, t);
      case TakeRetry => OneAsksRetried(n, y);
      case TakeRevoke =>
      case GetAttr(_, _) =>
      case Put(_, _, _) =>
    }
  }

  lemma NobodyGivesBack(n: Node, y: Tid, z: Tid, a: Actor)
    requires OneAsks(n, y) || BothAsk(n, y, z)
    ensures !CanAct(n, ServeRelease(a))
  {
  }

  // The other clients, whatever the cache entries hold.

  lemma AnswerNoted(r: Role, n: Node, t: Tid, granted: bool, revoke: bool)
    requires NodeInv(r, n) && CanAct(n, ServeAcquire(t)) && (!granted ==> !revoke)
    ensures r == Stranger || r == Chosen
    ensures var n' := LocalStep(n, ServeAcquire(t), E.Extent(0, []), granted);
            NodeInv(if granted then Owner(revoke) else Queued, Called(n', revoke, false))
  {
    WokenIsFront(r, n, t);
  }

  lemma ReleaseNoted(r: Role, n: Node, a: Actor)
    requires NodeInv(r, n) && CanAct(n, ServeRelease(a))
    ensures r == Owner(true) && NodeInv(Stranger, MoveActor(n, a, ReleaseDone))
  {
    ActorRole(r, n, a);
    if a.Thread? {
      WokenIsFront(r, n, a.t);
    }
  }

  lemma CallNoted(n: Node)
    ensures NodeInv(Owner(false), n) ==> NodeInv(Owner(true), Called(n, true, false))
    ensures NodeInv(Queued, n) ==> NodeInv(Chosen, Called(n, false, true))
    ensures Called(n, false, false) == n
  {
  }

  lemma OwnStepNoted(r: Role, n: Node, act: Act, e: E.Extent)
    requires NodeInv(r, n) && CanAct(n, act) && !act.ServeAcquire? && !act.ServeRelease?
    ensures NodeInv(r, LocalStep(n, act, e, false))
  {
    if act.WriteBack? {
      ActorRole(r, n, act.a);
      MoveActorKeeps(r, n, act.a, ReleaseSent);
    } else {
      LocalKeeps(r, n, act, e);
    }
  }

  ghost predicate Fine(sv: S.ServerLock, c: ClientId, n: Node) {
    NodeInv(RoleOf(sv, c), n)
  }

  // The lock is granted to the client with the two askers.

  predicate GrantedTo(sv: S.ServerLock, c: ClientId) {
    sv.holding == Some(c) && sv.retrying == None && (sv.state == S.Locked || sv.state == S.Revoking)
  }

  ghost predicate AfterGrant(s: State, c: ClientId, y: Tid) {
    && c in s.nodes && GrantedTo(s.server, c) && OneAsks(s.nodes[c], y)
    && forall d :: d in s.nodes && d != c ==> Fine(s.server, d, s.nodes[d])
  }

  lemma RefusesAll(sv: S.ServerLock, c: ClientId, d: ClientId)
    requires GrantedTo(sv, c)
    ensures var a := S.Acquire(sv, d);
            && !a.granted && GrantedTo(a.lk, c) && (a.revoke == None || a.revoke == Some(c))
            && (d != c ==> RoleOf(a.lk, d) == Queued)
            && forall e :: e != c && e != d ==> RoleOf(a.lk, e) == RoleOf(sv, e)
  {
  }

  lemma NoOwnerBeside(s: State, c: ClientId, y: Tid, l: Label)
    requires AfterGrant(s, c, y) && Enabled(s, l)
    ensures !l.act.ServeRelease?
  {
    if l.act.ServeRelease? && l.c == c {
      NobodyGivesBack(s.nodes[c], y, y, l.act.a);
    } else if l.act.ServeRelease? {
      assert Fine(s.server, l.c, s.nodes[l.c]);
      ReleaseNoted(RoleOf(s.server, l.c), s.nodes[l.c], l.act.a);
    }
  }

  lemma OtherAfterGrant(s: State, c: ClientId, y: Tid, l: Label, d: ClientId)
    requires AfterGrant(s, c, y) && Enabled(s, l) && d in s.nodes && d != c && !l.act.ServeRelease?
    ensures Fine(ServerAfter(s, l), d, NodeAfter(s, l, d))
  {
    var n, r := s.nodes[d], RoleOf(s.server, d);
    assert Fine(s.server, d, n);
    if l.act.ServeAcquire? {
      RefusesAll(s.server, c, l.c);
      if l.c == d {
        AnswerNoted(r, n, l.act.t, false, false);
      }
    } else if l.c == d {
      OwnStepNoted(r, n, l.act, s.extent);
    }
  }

  lemma AfterGrantKeeps(s: State, c: ClientId, y: Tid, l: Label)
    requires AfterGrant(s, c, y) && Enabled(s, l)
    ensures AfterGrant(Step(s, l), c, y)
  {
    StepIs(s, l);
    NoOwnerBeside(s, c, y, l);
    RefusesAll(s.server, c, l.c);
    if l.c == c {
      OneAsksKeeps(s.nodes[c], y, l.act, s.extent);
    }
    forall d | d in s.nodes && d != c
      ensures Fine(Step(s, l).server, d, Step(s, l).nodes[d])
    {
      OtherAfterGrant(s, c, y, l, d);
    }
  }

  // It is not granted to that client yet.

  ghost predicate BeforeGrant(s: State, c: ClientId, y: Tid, z: Tid) {
    && c in s.nodes && ServerInv(s.server, s.nodes.Keys) && s.server.holding != Some(c) && BothAsk(s.nodes[c], y, z)
    && forall d :: d in s.nodes && d != c ==> Fine(s.server, d, s.nodes[d])
  }

  /** Asking again while in the queue changes nothing. */
  lemma AskedAlready(sv: S.ServerLock, clients: set<ClientId>, c: ClientId)
    requires ServerInv(sv, clients) && RoleOf(sv, c) == Queued
    ensures S.Acquire(sv, c) == S.Acquired(sv, false, None)
  {
    assert sv.waiting + {c} == sv.waiting;
  }

  lemma OtherOnAcquire(s: State, c: ClientId, y: Tid, z: Tid, l: Label, d: ClientId)
    requires BeforeGrant(s, c, y, z) && Enabled(s, l) && d in s.nodes && d != c && l.act.ServeAcquire?
    ensures Fine(ServerAfter(s, l), d, NodeAfter(s, l, d))
  {
    var n, r := s.nodes[d], RoleOf(s.server, d);
    assert Fine(s.server, d, n);
    if l.c != c {
      assert Fine(s.server, l.c, s.nodes[l.c]);
      AnswerNoted(RoleOf(s.server, l.c), s.nodes[l.c], l.act.t, false, false);
    }
    if RoleOf(s.server, l.c) == Queued {
      AskedAlready(s.server, s.nodes.Keys, l.c);
    } else {
      AcquireRoles(s, l.c);
      if l.c == d {
        AnswerNoted(r, n, l.act.t, Granted(s, l), RevokeTo(s, l) == Some(d));
      } else {
        CallNoted(n);
      }
    }
  }

  lemma ReleaserIsOwner(s: State, c: ClientId, y: Tid, z: Tid, l: Label)
    requires BeforeGrant(s, c, y, z) && Enabled(s, l) && l.act.ServeRelease?
    ensures l.c != c && RoleOf(s.server, l.c) == Owner(true)
    ensures NodeInv(Stranger, LocalStep(s.nodes[l.c], l.act, s.extent, false))
  {
    if l.c == c {
      NobodyGivesBack(s.nodes[c], y, z, l.act.a);
    } else {
      assert Fine(s.server, l.c, s.nodes[l.c]);
      ReleaseNoted(RoleOf(s.server, l.c), s.nodes[l.c], l.act.a);
    }
  }

  lemma OtherOnRelease(s: State, c: ClientId, y: Tid, z: Tid, l: Label, d: ClientId)
    requires BeforeGrant(s, c, y, z) && Enabled(s, l) && d in s.nodes && d != c && l.act.ServeRelease?
    ensures Fine(ServerAfter(s, l), d, NodeAfter(s, l, d))
  {
    assert Fine(s.server, d, s.nodes[d]);
    ReleaserIsOwner(s, c, y, z, l);
    ReleaseRoles(s, l.c);
    CallNoted(s.nodes[d]);
  }

  lemma OtherBeforeGrant(s: State, c: ClientId, y: Tid, z: Tid, l: Label, d: ClientId)
    requires BeforeGrant(s, c, y, z) && Enabled(s, l) && d in s.nodes && d != c
    ensures Fine(ServerAfter(s, l), d, NodeAfter(s, l, d))
  {
    if l.act.ServeAcquire? {
      OtherOnAcquire(s, c, y, z, l, d);
    } else if l.act.ServeRelease? {
      OtherOnRelease(s, c, y, z, l, d);
    } else if l.c == d {
      assert Fine(s.server, d, s.nodes[d]);
      OwnStepNoted(RoleOf(s.server, d), s.nodes[d], l.act, s.extent);
    }
  }

  /** The grant, if the step is one, starts the second phase. */
  lemma AskersBeforeGrant(s: State, c: ClientId, y: Tid, z: Tid, l: Label)
    requires BeforeGrant(s, c, y, z) && Enabled(s, l)
    ensures var n' := NodeAfter(s, l, c);
            if l.c == c && Granted(s, l) then OneAsks(n', y) || OneAsks(n', z) else BothAsk(n', y, z)
  {
    if l.c == c && Granted(s, l) {
      GrantToOne(s.nodes[c], y, z, l.act.t, s.extent);
    } else if l.c == c {
      BothAskKeeps(s.nodes[c], y, z, l.act, s.extent);
    }
  }

  lemma ServerOnAcquire(s: State, c: ClientId, y: Tid, z: Tid, l: Label)
    requires BeforeGrant(s, c, y, z) && Enabled(s, l) && l.act.ServeAcquire?
    ensures if l.c == c && Granted(s, l) then GrantedTo(ServerAfter(s, l), c)
            else ServerInv(ServerAfter(s, l), s.nodes.Keys) && ServerAfter(s, l).holding != Some(c)
  {
    if l.c != c {
      assert Fine(s.server, l.c, s.nodes[l.c]);
      AnswerNoted(RoleOf(s.server, l.c), s.nodes[l.c], l.act.t, false, false);
    }
    if RoleOf(s.server, l.c) == Queued {
      AskedAlready(s.server, s.nodes.Keys, l.c);
    } else {
      AcquireRoles(s, l.c);
    }
  }

  lemma ServerOnRelease(s: State, c: ClientId, y: Tid, z: Tid, l: Label)
    requires BeforeGrant(s, c, y, z) && Enabled(s, l) && l.act.ServeRelease?
    ensures ServerInv(ServerAfter(s, l), s.nodes.Keys) && ServerAfter(s, l).holding != Some(c)
  {
    ReleaserIsOwner(s, c, y, z, l);
    ReleaseRoles(s, l.c);
  }

  /** Two threads of `c` ask, or one does and the other was granted the lock. */
  ghost predicate Muddled(s: State, c: ClientId, y: Tid, z: Tid) {
    BeforeGrant(s, c, y, z) || AfterGrant(s, c, y) || AfterGrant(s, c, z)
  }

  lemma BeforeGrantKeeps(s: State, c: ClientId, y: Tid, z: Tid, l: Label)
    requires BeforeGrant(s, c, y, z) && Enabled(s, l)
    ensures Muddled(Step(s, l), c, y, z)
  {
    StepIs(s, l);
    AskersBeforeGrant(s, c, y, z, l);
    if l.act.ServeAcquire? {
      ServerOnAcquire(s, c, y, z, l);
    } else if l.act.ServeRelease? {
      ServerOnRelease(s, c, y, z, l);
    }
    forall d | d in s.nodes && d != c
      ensures Fine(Step(s, l).server, d, Step(s, l).nodes[d])
    {
      OtherBeforeGrant(s, c, y, z, l, d);
    }
  }

  lemma {:induction false} MuddledOverRun(s: State, c: ClientId, y: Tid, z: Tid, ls: seq<Label>)
    requires Muddled(s, c, y, z) && Run(s, ls)
    ensures Muddled(After(s, ls), c, y, z)
    decreases |ls|
  {
    if ls != [] {
      MuddledOverRun(s, c, y, z, Most(ls));
      var here := After(s, Most(ls));
      if BeforeGrant(here, c, y, z) {
        BeforeGrantKeeps(here, c, y, z, Last(ls));
      } else {
        AfterGrantKeeps(here, c, if AfterGrant(here, c, y) then y else z, Last(ls));
      }
    }
  }

  lemma HolderOf(s: State, c: ClientId, y: Tid, z: Tid, d: ClientId, u: Tid)
    requires Muddled(s, c, y, z) && HoldsLock(s, d, u)
    ensures s.server.holding == Some(d)
    ensures d != c ==> s.nodes[d].lk.queue != [] && s.nodes[d].lk.queue[0] == u
  {
    if d != c {
      assert Fine(s.server, d, s.nodes[d]);
      WokenIsFront(RoleOf(s.server, d), s.nodes[d], u);
    }
  }

  /** Exclusion holds all the same. */
  lemma MuddledExcludes(s: State, c: ClientId, y: Tid, z: Tid)
    requires Muddled(s, c, y, z)
    ensures !TwoHold(s)
  {
    forall d, u, e, v | HoldsLock(s, d, u) && HoldsLock(s, e, v)
      ensures d == e && u == v
    {
      HolderOf(s, c, y, z, d, u);
      HolderOf(s, c, y, z, e, v);
    }
  }

  // How it starts.

  lemma {:induction false} DistinctCount(q: seq<Tid>, ts: set<Tid>)
    requires (forall j, k :: 0 <= j < k < |q| ==> q[j] != q[k]) && forall t :: t in ts <==> t in q
    ensures |ts| == |q|
  {
    if q == [] {
      assert ts == {};
    } else {
      assert forall t :: t in q[1..] ==> t != q[0];
      assert forall t :: t in q <==> t == q[0] || t in q[1..];
      DistinctCount(q[1..], ts - {q[0]});
    }
  }

  /** A thread wakes unasked behind one that is about to ask. */
  lemma SecondAsks(r: Role, n: Node, t: Tid)
    requires NodeInv(r, n) && n.lk.state == C.Absent && t in n.pc && n.pc[t] == ForTurn(false)
    requires n.lk.queue != [] && n.pc[n.lk.queue[0]] == ForRelease(true)
    ensures BothAsk(n.(lk := n.lk.(state := C.Acquiring), pc := n.pc[t := AcquireSent]), n.lk.queue[0], t)
  {
    forall u | u in n.lk.queue
      ensures n.pc[u] != Idle
    {
      var k :| 0 <= k < |n.lk.queue| && n.lk.queue[k] == u;
    }
    DistinctCount(n.lk.queue, Inside(n.pc));
    InsideStays(n.pc, t, AcquireSent);
    forall u | u in n.pc && u != t && u != n.lk.queue[0]
      ensures n.pc[u] == Idle || n.pc[u] == ForTurn(false)
    {
      if u in n.lk.queue {
        var k :| 0 <= k < |n.lk.queue| && n.lk.queue[k] == u;
      }
    }
  }

  lemma StartsMuddled(s: State, last: E.Bytes, c: ClientId, t: Tid)
    requires Inv(s, last) && SleepsBehind(s, c, t) && s.nodes[c].lk.state == C.Absent && !AtRisk(s.nodes[c])
    ensures s.nodes[c].lk.queue != [] && BeforeGrant(GoOnUnasked(s, c, t), c, s.nodes[c].lk.queue[0], t)
  {
    assert NodeOk(s, last, c);
    GoOnIs(s, c, t);
    SecondAsks(RoleOf(s.server, c), s.nodes[c], t);
    assert forall d :: d in s.nodes ==> NodeOk(s, last, d);
    assert GoOnUnasked(s, c, t).nodes.Keys == s.nodes.Keys;
  }

  lemma AskingBesideIsHarmless(s: State, last: E.Bytes, c: ClientId, t: Tid, ls: seq<Label>)
    requires Inv(s, last) && SleepsBehind(s, c, t) && s.nodes[c].lk.state == C.Absent && !AtRisk(s.nodes[c])
    requires Run(GoOnUnasked(s, c, t), ls)
    ensures !TwoHold(After(GoOnUnasked(s, c, t), ls))
  {
    StartsMuddled(s, last, c, t);
    MuddledOverRun(GoOnUnasked(s, c, t), c, s.nodes[c].lk.queue[0], t, ls);
    MuddledExcludes(After(GoOnUnasked(s, c, t), ls), c, s.nodes[c].lk.queue[0], t);
  }
}

/** Every step of the caching lock protocol keeps the invariant. */
module LockSteps {
  import opened Options
  import C = LockClientCache
  import S = LockServerCache
  import E = ExtentClient
  import opened LockProtocol
  import opened LockInvariant

  /** Steps that involve neither server. */
  predicate Local(act: Act) {
    !act.ServeAcquire? && !act.ServeRelease? && !act.WriteBack?
  }

  /** Whether the server grants the lock in this step. */
  function Granted(s: State, l: Label): bool {
    l.act.ServeAcquire? && S.Acquire(s.server, l.c).granted
  }

  /** Two nodes that differ at most in the callbacks under way to them. */
  predicate SameButCallbacks(n: Node, n': Node) {
    n'.lk == n.lk && n'.pc == n.pc && n'.handlers == n.handlers && n'.file == n.file
  }

  /** A step changes its own client by `LocalStep`; another client at most gets a callback. */
  lemma StepAt(s: State, l: Label, c: ClientId)
    requires Enabled(s, l) && c in s.nodes
    ensures c in Step(s, l).nodes
    ensures l.c != c ==> SameButCallbacks(s.nodes[c], Step(s, l).nodes[c])
    ensures l.c == c ==> SameButCallbacks(LocalStep(s.nodes[c], l.act, s.extent, Granted(s, l)), Step(s, l).nodes[c])
  {
    if l.act.ServeAcquire? {
      assert c in Step(s, l).nodes;
    } else if l.act.ServeRelease? {
      assert c in Step(s, l).nodes;
    }
  }

  /** Whom the server calls back in this step. */
  function RevokeTo(s: State, l: Label): Option<ClientId> {
    if l.act.ServeAcquire? then S.Acquire(s.server, l.c).revoke else None
  }

  function RetryTo(s: State, l: Label): Option<ClientId> {
    if l.act.ServeRelease? then S.Release(s.server).retry else None
  }

  function ServerAfter(s: State, l: Label): S.ServerLock {
    if l.act.ServeAcquire? then S.Acquire(s.server, l.c).lk
    else if l.act.ServeRelease? then S.Release(s.server).lk
    else s.server
  }

  function ExtentAfter(s: State, l: Label): E.Extent
    requires Enabled(s, l)
  {
    if l.act.WriteBack? then E.WriteBack(s.nodes[l.c].file, s.extent) else s.extent
  }

  function Called(n: Node, revoke: bool, retry: bool): Node {
    n.(revokes := n.revokes + if revoke then 1 else 0, retries := n.retries + if retry then 1 else 0)
  }

  function NodeAfter(s: State, l: Label, c: ClientId): Node
    requires Enabled(s, l) && c in s.nodes
  {
    Called(if l.c == c then LocalStep(s.nodes[c], l.act, s.extent, Granted(s, l)) else s.nodes[c],
           RevokeTo(s, l) == Some(c), RetryTo(s, l) == Some(c))
  }

  /** A state after a step, part by part. */
  predicate Follows(s: State, l: Label, s': State)
    requires Enabled(s, l)
  {
    && s'.server == ServerAfter(s, l) && s'.extent == ExtentAfter(s, l) && s'.nodes.Keys == s.nodes.Keys
    && forall c :: c in s.nodes ==> s'.nodes[c] == NodeAfter(s, l, c)
  }

  lemma StepIs(s: State, l: Label)
    requires Enabled(s, l)
    ensures Follows(s, l, Step(s, l))
  {
    forall c | c in s.nodes
      ensures c in Step(s, l).nodes && Step(s, l).nodes[c] == NodeAfter(s, l, c)
    {
      if l.act.ServeAcquire? {
        assert c in Step(s, l).nodes;
      } else if l.act.ServeRelease? {
        assert c in Step(s, l).nodes;
      }
    }
  }

  // The client record and the threads.

  lemma IdleIsOutside(r: Role, n: Node, t: Tid)
    requires NodeInv(r, n) && t in n.pc && n.pc[t] == Idle
    ensures t !in n.lk.queue
  {
  }

  lemma QueueGrows(n: Node, t: Tid, st: C.ClientState, p: Pc)
    requires QueueInv(n) && t in n.pc && t !in n.lk.queue
    requires n.lk.queue != [] ==> p == ForTurn(false)
    ensures QueueInv(n.(lk := n.lk.(queue := n.lk.queue + [t], state := st), pc := n.pc[t := p]))
  {
    var q, q' := n.lk.queue, n.lk.queue + [t];
    assert forall k :: 0 <= k < |q| ==> q'[k] == q[k] && q[k] in q;
    assert forall u :: u in q' <==> u in q || u == t;
  }

  lemma EnterKeeps(r: Role, n: Node, t: Tid)
    requires NodeInv(r, n) && CanAct(n, Enter(t))
    ensures NodeInv(r, RunRegion(n, t, C.EnterAcquire(n.lk, t)))
  {
    IdleIsOutside(r, n, t);
    var g := C.EnterAcquire(n.lk, t);
    QueueGrows(n, t, g.lk.state, AfterRegion(g.next));
    if n.lk.queue != [] {
      assert g.lk.queue[0] == n.lk.queue[0];
    }
  }

  lemma WokenIsFront(r: Role, n: Node, t: Tid)
    requires NodeInv(r, n) && t in n.pc && n.pc[t] != Idle && n.pc[t] != ForTurn(false)
    ensures n.lk.queue != [] && n.lk.queue[0] == t
  {
    var k :| 0 <= k < |n.lk.queue| && n.lk.queue[k] == t;
  }

  lemma WakeKeeps(r: Role, n: Node, t: Tid)
    requires NodeInv(r, n) && CanAct(n, Wake(t))
    ensures NodeInv(r, LocalStep(n, Wake(t), E.Extent(0, []), false))
  {
    WokenIsFront(r, n, t);
  }

  lemma TakeAnswerKeeps(r: Role, n: Node, t: Tid)
    requires NodeInv(r, n) && CanAct(n, TakeAnswer(t))
    ensures NodeInv(r, LocalStep(n, TakeAnswer(t), E.Extent(0, []), false))
  {
    WokenIsFront(r, n, t);
  }

  /** The first thread leaves and the next one is signalled. */
  lemma QueueShrinks(n: Node, n': Node, t: Tid)
    requires QueueInv(n) && n.lk.queue != [] && n.lk.queue[0] == t
    requires n'.lk.queue == C.Behind(n.lk.queue)
    requires n'.pc == Signal(n.pc[t := Idle], C.Front(n'.lk.queue))
    ensures QueueInv(n')
    ensures n'.lk.queue != [] ==> n'.pc[n'.lk.queue[0]] == ForTurn(true)
  {
    var q, rest := n.lk.queue, n'.lk.queue;
    assert forall k :: 0 <= k < |rest| ==> rest[k] == q[k + 1];
    assert forall u :: u in q <==> u == t || u in rest;
    assert t !in rest;
  }

  lemma HandOverKeeps(r: Role, n: Node, t: Tid)
    requires NodeInv(r, n) && n.lk.state == C.Locked && n.lk.queue[0] == t && !C.MustGiveBack(n.lk)
    ensures var s := C.ReleaseLocally(n.lk);
            NodeInv(r, n.(lk := s.lk, pc := Signal(n.pc[t := Idle], s.signalled)))
  {
    var s := C.ReleaseLocally(n.lk);
    QueueShrinks(n, n.(lk := s.lk, pc := Signal(n.pc[t := Idle], s.signalled)), t);
  }

  lemma BeginReleaseKeeps(r: Role, n: Node, t: Tid)
    requires NodeInv(r, n) && CanAct(n, BeginRelease(t))
    ensures NodeInv(r, LocalStep(n, BeginRelease(t), E.Extent(0, []), false))
  {
    WokenIsFront(r, n, t);
    if !C.MustGiveBack(n.lk) {
      HandOverKeeps(r, n, t);
    }
  }

  lemma EndReleaseKeeps(r: Role, n: Node, a: Actor)
    requires NodeInv(r, n) && CanAct(n, EndRelease(a))
    ensures NodeInv(r, EndActor(n, a))
  {
    match a {
      case Thread(t) =>
        WokenIsFront(r, n, t);
        QueueShrinks(n, EndActor(n, a), t);
      case Handler(i) =>
        assert n.handlers[..i] + n.handlers[i + 1..] == [];
    }
  }

  lemma MoveActorKeeps(r: Role, n: Node, a: Actor, p: Pc)
    requires NodeInv(r, n) && HasActor(n, a) && GivingBack(r, ActorPc(n, a)) && GivingBack(r, p)
    ensures NodeInv(r, MoveActor(n, a, p))
    ensures Progress(n) == ActorPc(n, a) && Progress(MoveActor(n, a, p)) == p
  {
    if a.Thread? {
      WokenIsFront(r, n, a.t);
    }
  }

  lemma CallbackKeeps(r: Role, n: Node, act: Act)
    requires NodeInv(r, n) && CanAct(n, act) && (act.TakeRevoke? || act.TakeRetry?)
    ensures NodeInv(r, LocalStep(n, act, E.Extent(0, []), false))
  {
  }

  lemma FileStepKeeps(r: Role, n: Node, act: Act, e: E.Extent)
    requires NodeInv(r, n) && CanAct(n, act) && (act.Get? || act.GetAttr? || act.Put?)
    ensures NodeInv(r, LocalStep(n, act, e, false))
    ensures r.Owner? && Progress(n) == Progress(LocalStep(n, act, e, false)) == Idle
  {
    WokenIsFront(r, n, act.t);
  }

  lemma LocalKeeps(r: Role, n: Node, act: Act, e: E.Extent)
    requires NodeInv(r, n) && CanAct(n, act) && Local(act)
    ensures NodeInv(r, LocalStep(n, act, e, false))
  {
    match act {
      case Enter(t) => EnterKeeps(r, n, t);
      case Wake(t) => WakeKeeps(r, n, t);
      case TakeAnswer(t) => TakeAnswerKeeps(r, n, t);
      case BeginRelease(t) => BeginReleaseKeeps(r, n, t);
      case Invalidate(a) => ActorRole(r, n, a); MoveActorKeeps(r, n, a, SyncWrite);
      case EndRelease(a) => EndReleaseKeeps(r, n, a);
      case TakeRevoke => CallbackKeeps(r, n, act);
      case TakeRetry => CallbackKeeps(r, n, act);
      case _ => FileStepKeeps(r, n, act, e);
    }
  }

  /** Whoever is at a point of giving the lock back is so with the server's knowledge. */
  lemma ActorRole(r: Role, n: Node, a: Actor)
    requires NodeInv(r, n) && HasActor(n, a)
    requires ActorPc(n, a) in {SyncStart, SyncWrite, ReleaseSent, ReleaseDone}
    ensures GivingBack(r, ActorPc(n, a)) && n.lk.state == C.Releasing && Progress(n) == ActorPc(n, a)
  {
    if a.Thread? {
      WokenIsFront(r, n, a.t);
    }
  }

  // The extent cache.

  predicate UsesFile(act: Act) {
    act.Get? || act.GetAttr? || act.Put?
  }

  /** Steps of the lock code leave the entry alone and let no thread in that has read it already. */
  lemma LockCodeLeavesFile(n: Node, act: Act, e: E.Extent)
    requires CanAct(n, act) && Local(act) && !UsesFile(act) && !act.Invalidate?
    ensures var n' := LocalStep(n, act, e, false);
            && n'.file == n.file
            && forall t :: t in n'.pc && n'.pc[t] == Held(true) ==> t in n.pc && n.pc[t] == Held(true)
  {
  }

  lemma LockCodeProgress(r: Role, n: Node, act: Act, e: E.Extent)
    requires NodeInv(r, n) && CanAct(n, act) && Local(act) && !UsesFile(act) && !act.Invalidate? && r.Owner?
    ensures var n' := LocalStep(n, act, e, false);
            Progress(n') == Progress(n) || (Progress(n) == Idle && Progress(n') == SyncStart)
  {
    match act {
      case Enter(t) => EnterKeeps(r, n, t);
      case EndRelease(a) => ActorRole(r, n, a);
      case TakeRevoke =>
      case TakeRetry =>
      case Wake(t) => WokenIsFront(r, n, t);
      case TakeAnswer(t) => WokenIsFront(r, n, t);
      case BeginRelease(t) => WokenIsFront(r, n, t);
    }
  }

  lemma FileStepCurrent(r: Role, n: Node, act: Act, e: E.Extent, last: E.Bytes)
    requires NodeInv(r, n) && CanAct(n, act) && UsesFile(act)
    requires FileInv(r, n, e.kind, last)
    requires E.Dirty(n.file) || e.bytes == last
    ensures var n' := LocalStep(n, act, e, false);
            var last' := if act.Put? then act.buf else last;
            && FileInv(r, n', e.kind, last')
            && (E.Dirty(n'.file) || e.bytes == last')
            && r.Owner?
            && (act.Get? ==> n'.file.value.buf == last)
            && (act.GetAttr? ==> n'.file.value.attr == E.Attr(e.kind, E.SizeOf(last)))
  {
    FileStepKeeps(r, n, act, e);
  }

  /** Only the owner ever works on the entry. */
  lemma LocalFileKeeps(r: Role, n: Node, act: Act, e: E.Extent, last: E.Bytes)
    requires NodeInv(r, n) && CanAct(n, act) && Local(act) && r.Owner?
    requires FileInv(r, n, e.kind, last)
    requires E.Dirty(n.file) || e.bytes == last
    ensures var n' := LocalStep(n, act, e, false);
            var last' := if act.Put? then act.buf else last;
            && FileInv(r, n', e.kind, last')
            && (E.Dirty(n'.file) || e.bytes == last')
  {
    if UsesFile(act) {
      FileStepCurrent(r, n, act, e, last);
    } else if act.Invalidate? {
      ActorRole(r, n, act.a);
      MoveActorKeeps(r, n, act.a, SyncWrite);
    } else {
      LockCodeLeavesFile(n, act, e);
      LockCodeProgress(r, n, act, e);
    }
  }

  /** A client that is not the owner keeps its entry clean whatever else it does. */
  lemma LocalCleanKeeps(r: Role, n: Node, act: Act, e: E.Extent, last: E.Bytes)
    requires NodeInv(r, n) && CanAct(n, act) && Local(act) && !r.Owner?
    requires FileInv(r, n, e.kind, last)
    ensures FileInv(r, LocalStep(n, act, e, false), e.kind, last)
    ensures !act.Put?
  {
    if UsesFile(act) {
      FileStepKeeps(r, n, act, e);
    } else if act.Invalidate? {
      ActorRole(r, n, act.a);
    } else {
      LockCodeLeavesFile(n, act, e);
    }
  }

  lemma LocalStepKeeps(s: State, l: Label, last: E.Bytes)
    requires Inv(s, last) && Enabled(s, l) && Local(l.act)
    ensures Inv(Step(s, l), if l.act.Put? then l.act.buf else last)
  {
    var n, r := s.nodes[l.c], RoleOf(s.server, l.c);
    var n' := LocalStep(n, l.act, s.extent, false);
    LocalKeeps(r, n, l.act, s.extent);
    if s.server.holding == Some(l.c) {
      LocalFileKeeps(r, n, l.act, s.extent, last);
      NodeChanged(s, l.c, n', s.extent, last, if l.act.Put? then l.act.buf else last);
    } else {
      LocalCleanKeeps(r, n, l.act, s.extent, last);
      NodeChanged(s, l.c, n', s.extent, last, last);
    }
  }

  lemma WriteBackNode(r: Role, n: Node, a: Actor, e: E.Extent, last: E.Bytes)
    requires NodeInv(r, n) && CanAct(n, WriteBack(a)) && FileInv(r, n, e.kind, last)
    ensures var n' := LocalStep(n, WriteBack(a), e, false);
            && r == Owner(true) && NodeInv(r, n') && FileInv(r, n', e.kind, last)
            && E.WriteBack(n.file, e).kind == e.kind
            && (E.Dirty(n.file) || e.bytes == last ==> E.WriteBack(n.file, e).bytes == last)
  {
    ActorRole(r, n, a);
    MoveActorKeeps(r, n, a, ReleaseSent);
  }

  lemma WriteBackKeeps(s: State, l: Label, last: E.Bytes)
    requires Inv(s, last) && Enabled(s, l) && l.act.WriteBack?
    ensures Inv(Step(s, l), last)
  {
    var n := s.nodes[l.c];
    assert NodeOk(s, last, l.c);
    WriteBackNode(RoleOf(s.server, l.c), n, l.act.a, s.extent, last);
    assert s.server.holding == Some(l.c) && (E.Dirty(n.file) || s.extent.bytes == last);
    NodeChanged(s, l.c, LocalStep(n, l.act, s.extent, false), E.WriteBack(n.file, s.extent), last, last);
  }

  // The lock server.

  /** The acquire RPC changes the role of its caller, and of the holder when that gets revoked. */
  lemma AcquireRoles(s: State, c: ClientId)
    requires ServerInv(s.server, s.nodes.Keys) && c in s.nodes
    requires RoleOf(s.server, c) == Stranger || RoleOf(s.server, c) == Chosen
    ensures var a := S.Acquire(s.server, c);
            && ServerInv(a.lk, s.nodes.Keys)
            && (a.granted ==> RoleOf(a.lk, c) == Owner(a.revoke == Some(c)))
            && (!a.granted ==> RoleOf(a.lk, c) == Queued && RoleOf(s.server, c) == Stranger && a.revoke != Some(c))
            && forall d :: d in s.nodes && d != c ==>
                 if a.revoke == Some(d) then RoleOf(s.server, d) == Owner(false) && RoleOf(a.lk, d) == Owner(true)
                 else RoleOf(a.lk, d) == RoleOf(s.server, d)
  {
  }

  lemma ReleaseRoles(s: State, c: ClientId)
    requires ServerInv(s.server, s.nodes.Keys) && c in s.nodes && RoleOf(s.server, c) == Owner(true)
    ensures var r := S.Release(s.server);
            && ServerInv(r.lk, s.nodes.Keys)
            && RoleOf(r.lk, c) == Stranger && r.retry != Some(c)
            && forall d :: d in s.nodes && d != c ==>
                 if r.retry == Some(d) then RoleOf(s.server, d) == Queued && RoleOf(r.lk, d) == Chosen
                 else RoleOf(r.lk, d) == RoleOf(s.server, d)
  {
  }

  lemma RevokeReaches(n: Node, kind: nat, last: E.Bytes)
    requires NodeInv(Owner(false), n) && FileInv(Owner(false), n, kind, last)
    ensures NodeInv(Owner(true), n.(revokes := n.revokes + 1))
    ensures FileInv(Owner(true), n.(revokes := n.revokes + 1), kind, last)
  {
  }

  lemma RetryReaches(n: Node, kind: nat, last: E.Bytes)
    requires NodeInv(Queued, n) && FileInv(Queued, n, kind, last)
    ensures NodeInv(Chosen, n.(retries := n.retries + 1))
    ensures FileInv(Chosen, n.(retries := n.retries + 1), kind, last)
  {
  }

  lemma AnswerReaches(r: Role, n: Node, t: Tid, granted: bool, revoke: bool, e: E.Extent, last: E.Bytes)
    requires NodeInv(r, n) && FileInv(r, n, e.kind, last) && CanAct(n, ServeAcquire(t))
    requires !granted ==> !revoke
    ensures r == Stranger || r == Chosen
    ensures var n' := LocalStep(n, ServeAcquire(t), e, granted)
                      .(revokes := if revoke then n.revokes + 1 else n.revokes);
            var r' := if granted then Owner(revoke) else Queued;
            NodeInv(r', n') && FileInv(r', n', e.kind, last) && !E.Dirty(n'.file)
  {
    WokenIsFront(r, n, t);
  }

  lemma CallerAfterAcquire(s: State, l: Label, last: E.Bytes)
    requires ServerInv(s.server, s.nodes.Keys) && Enabled(s, l) && NodeOk(s, last, l.c) && l.act.ServeAcquire?
    ensures l.c in Step(s, l).nodes && NodeOk(Step(s, l), last, l.c)
    ensures RoleOf(s.server, l.c) == Stranger || RoleOf(s.server, l.c) == Chosen
    ensures !E.Dirty(s.nodes[l.c].file) && Step(s, l).nodes[l.c].file == s.nodes[l.c].file
  {
    var n, a := s.nodes[l.c], S.Acquire(s.server, l.c);
    var revoke := a.revoke == Some(l.c) && a.granted;
    AnswerReaches(RoleOf(s.server, l.c), n, l.act.t, a.granted, revoke, s.extent, last);
    AcquireRoles(s, l.c);
    assert Step(s, l).nodes[l.c] ==
           LocalStep(n, l.act, s.extent, a.granted).(revokes := if revoke then n.revokes + 1 else n.revokes);
  }

  lemma OtherAfterAcquire(s: State, l: Label, last: E.Bytes, d: ClientId)
    requires ServerInv(s.server, s.nodes.Keys) && Enabled(s, l) && l.act.ServeAcquire?
    requires d in s.nodes && d != l.c && NodeOk(s, last, d)
    requires RoleOf(s.server, l.c) == Stranger || RoleOf(s.server, l.c) == Chosen
    ensures d in Step(s, l).nodes && NodeOk(Step(s, l), last, d)
    ensures Step(s, l).nodes[d].file == s.nodes[d].file
  {
    AcquireRoles(s, l.c);
    if S.Acquire(s.server, l.c).revoke == Some(d) {
      assert Step(s, l).nodes[d] == s.nodes[d].(revokes := s.nodes[d].revokes + 1);
      RevokeReaches(s.nodes[d], s.extent.kind, last);
    } else {
      assert Step(s, l).nodes[d] == s.nodes[d];
    }
  }

  lemma AcquireKeepsRest(s: State, l: Label)
    requires ServerInv(s.server, s.nodes.Keys) && Enabled(s, l) && l.act.ServeAcquire?
    ensures Step(s, l).server == S.Acquire(s.server, l.c).lk
    ensures Step(s, l).nodes.Keys == s.nodes.Keys && Step(s, l).extent == s.extent
    ensures s.server.holding.Some? ==> Step(s, l).server.holding == s.server.holding
  {
  }

  /** What the server's copy is does not depend on who has just got the lock. */
  lemma ExtentStays(s: State, s': State, last: E.Bytes)
    requires ExtentInv(s, last) && s'.extent == s.extent && s'.nodes.Keys == s.nodes.Keys
    requires s.server.holding.Some? ==> s'.server.holding == s.server.holding
    requires forall d :: d in s.nodes ==> s'.nodes[d].file == s.nodes[d].file
    ensures ExtentInv(s', last)
  {
  }

  lemma ClientOnAcquire(s: State, l: Label, last: E.Bytes, d: ClientId)
    requires Inv(s, last) && Enabled(s, l) && l.act.ServeAcquire? && d in s.nodes
    ensures d in Step(s, l).nodes && NodeOk(Step(s, l), last, d) && Step(s, l).nodes[d].file == s.nodes[d].file
  {
    assert NodeOk(s, last, l.c) && NodeOk(s, last, d);
    CallerAfterAcquire(s, l, last);
    if d != l.c {
      OtherAfterAcquire(s, l, last, d);
    }
  }

  lemma ServeAcquireKeeps(s: State, l: Label, last: E.Bytes)
    requires Inv(s, last) && Enabled(s, l) && l.act.ServeAcquire?
    ensures Inv(Step(s, l), last)
  {
    AcquireKeepsRest(s, l);
    assert NodeOk(s, last, l.c);
    CallerAfterAcquire(s, l, last);
    AcquireRoles(s, l.c);
    var s' := Step(s, l);
    forall d | d in s.nodes
      ensures NodeOk(s', last, d) && s'.nodes[d].file == s.nodes[d].file
    {
      ClientOnAcquire(s, l, last, d);
    }
    ExtentStays(s, s', last);
  }

  lemma CallerAfterRelease(s: State, l: Label, last: E.Bytes)
    requires ServerInv(s.server, s.nodes.Keys) && Enabled(s, l) && NodeOk(s, last, l.c) && l.act.ServeRelease?
    ensures l.c in Step(s, l).nodes && NodeOk(Step(s, l), last, l.c)
    ensures RoleOf(s.server, l.c) == Owner(true) && !E.Dirty(s.nodes[l.c].file)
  {
    ActorRole(RoleOf(s.server, l.c), s.nodes[l.c], l.act.a);
    ReleaseRoles(s, l.c);
    HandedOver(s.nodes[l.c], l.act.a, s.extent.kind, last);
    assert Step(s, l).nodes[l.c] == MoveActor(s.nodes[l.c], l.act.a, ReleaseDone);
  }

  lemma OtherAfterRelease(s: State, l: Label, last: E.Bytes, d: ClientId)
    requires ServerInv(s.server, s.nodes.Keys) && Enabled(s, l) && l.act.ServeRelease?
    requires d in s.nodes && d != l.c && NodeOk(s, last, d)
    requires RoleOf(s.server, l.c) == Owner(true)
    ensures d in Step(s, l).nodes && NodeOk(Step(s, l), last, d)
  {
    ReleaseRoles(s, l.c);
    if S.Release(s.server).retry == Some(d) {
      assert Step(s, l).nodes[d] == s.nodes[d].(retries := s.nodes[d].retries + 1);
      RetryReaches(s.nodes[d], s.extent.kind, last);
    } else {
      assert Step(s, l).nodes[d] == s.nodes[d];
    }
  }

  /** Once the owner has written back, the server's copy is current. */
  lemma ExtentCurrent(s: State, c: ClientId, last: E.Bytes)
    requires ExtentInv(s, last) && c in s.nodes && RoleOf(s.server, c).Owner? && !E.Dirty(s.nodes[c].file)
    ensures s.extent.bytes == last
  {
  }

  lemma ReleaseKeepsExtent(s: State, l: Label)
    requires Enabled(s, l) && l.act.ServeRelease?
    ensures Step(s, l).nodes.Keys == s.nodes.Keys && Step(s, l).extent == s.extent
    ensures Step(s, l).server == S.Release(s.server).lk
  {
  }

  lemma ServeReleaseKeeps(s: State, l: Label, last: E.Bytes)
    requires Inv(s, last) && Enabled(s, l) && l.act.ServeRelease?
    ensures Inv(Step(s, l), last)
  {
    CallerAfterRelease(s, l, last);
    ReleaseRoles(s, l.c);
    ReleaseKeepsExtent(s, l);
    ExtentCurrent(s, l.c, last);
    var s' := Step(s, l);
    forall d | d in s'.nodes
      ensures NodeOk(s', last, d)
    {
      if d != l.c {
        OtherAfterRelease(s, l, last, d);
      }
    }
  }

  lemma HandedOver(n: Node, a: Actor, kind: nat, last: E.Bytes)
    requires NodeInv(Owner(true), n) && FileInv(Owner(true), n, kind, last)
    requires HasActor(n, a) && ActorPc(n, a) == ReleaseSent
    ensures NodeInv(Stranger, MoveActor(n, a, ReleaseDone))
    ensures FileInv(Stranger, MoveActor(n, a, ReleaseDone), kind, last)
    ensures !E.Dirty(n.file)
  {
    ActorRole(Owner(true), n, a);
    if a.Thread? {
      WokenIsFront(Owner(true), n, a.t);
    }
  }

  /** Every step, of any client, keeps the invariant. */
  lemma StepKeeps(s: State, l: Label, last: E.Bytes)
    requires Inv(s, last) && Enabled(s, l)
    ensures Inv(Step(s, l), if l.act.Put? then l.act.buf else last)
  {
    match l.act {
      case ServeAcquire(_) => ServeAcquireKeeps(s, l, last);
      case ServeRelease(_) => ServeReleaseKeeps(s, l, last);
      case WriteBack(_) => WriteBackKeeps(s, l, last);
      case _ => LocalStepKeeps(s, l, last);
    }
  }

  /** A run keeps the invariant, wherever it starts. */
  lemma {:induction false} InvOverRun(s: State, last: E.Bytes, ls: seq<Label>)
    requires Inv(s, last) && Run(s, ls)
    ensures Inv(After(s, ls), LastPut(ls, last))
    decreases |ls|
  {
    if ls != [] {
      InvOverRun(s, last, Most(ls));
      StepKeeps(After(s, Most(ls)), Last(ls), LastPut(Most(ls), last));
    }
  }

  /** The invariant holds at the end of every run. */
  lemma RunKeeps(s: State, ls: seq<Label>)
    requires Initial(s) && Run(s, ls)
    ensures Inv(After(s, ls), LastPut(ls, s.extent.bytes))
  {
    InitialInv(s);
    InvOverRun(s, s.extent.bytes, ls);
  }
}

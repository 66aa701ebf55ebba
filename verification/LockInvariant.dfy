/** The inductive invariant of the caching lock protocol. */
module LockInvariant {
  import opened Options
  import C = LockClientCache
  import S = LockServerCache
  import E = ExtentClient
  import opened LockProtocol

  /** How the server sees a client. */
  datatype Role = Owner(revoked: bool) | Chosen | Queued | Stranger

  function RoleOf(sv: S.ServerLock, c: ClientId): Role {
    if sv.holding == Some(c) then Owner(sv.state == S.Revoking)
    else if sv.retrying == Some(c) then Chosen
    else if c in sv.waiting then Queued
    else Stranger
  }

  predicate ServerInv(sv: S.ServerLock, clients: set<ClientId>) {
    && sv.waiting <= clients
    && (sv.holding.Some? ==> sv.holding.value in clients && sv.holding.value !in sv.waiting)
    && (sv.retrying.Some? ==> sv.retrying.value in clients && sv.retrying.value !in sv.waiting)
    && match sv.state
       case Unheld => sv.holding.None? && sv.retrying.None? && sv.waiting == {}
       case Locked => sv.holding.Some? && sv.retrying.None? && sv.waiting == {}
       case Revoking => sv.holding.Some? && sv.retrying.None? && sv.waiting != {}
       case Retrying => sv.holding.None? && sv.retrying.Some?
  }

  /** Every thread in the queue but the first sleeps until its turn; no other thread is inside. */
  ghost predicate QueueInv(n: Node) {
    var q := n.lk.queue;
    && (forall t :: t in q ==> t in n.pc)
    && (forall t :: t in n.pc && t !in q ==> n.pc[t] == Idle)
    && (forall j, k :: 0 <= j < k < |q| ==> q[j] != q[k])
    && (forall k :: 1 <= k < |q| ==> n.pc[q[k]] == ForTurn(false))
  }

  /** A revoke that the server has decided on is under way or recorded, exactly once. */
  predicate RevokeKept(r: Role, n: Node) {
    && r.Owner? && n.retries == 0
    && if r.revoked then (n.revokes == 1 && n.lk.response == C.Empty) || (n.revokes == 0 && n.lk.response == C.Revoke)
       else n.revokes == 0 && n.lk.response == C.Empty
  }

  /** A retry that the server has decided on is under way or recorded, exactly once. */
  predicate RetryKept(r: Role, n: Node) {
    && n.revokes == 0
    && match r
       case Queued => n.retries == 0 && n.lk.response == C.Empty
       case Chosen => (n.retries == 1 && n.lk.response == C.Empty) || (n.retries == 0 && n.lk.response == C.Retry)
       case _ => false
  }

  predicate Quiet(n: Node) {
    n.revokes == 0 && n.retries == 0
  }

  /** Giving the lock back: the server still counts the client as owner until it has handled the release. */
  predicate GivingBack(r: Role, p: Pc) {
    match p
    case SyncStart => r == Owner(true)
    case SyncWrite => r == Owner(true)
    case ReleaseSent => r == Owner(true)
    case ReleaseDone => r == Stranger
    case _ => false
  }

  ghost predicate NodeInv(r: Role, n: Node) {
    QueueInv(n) &&
    var q := n.lk.queue;
    match n.lk.state
    case Absent =>
      && r == Stranger && Quiet(n) && n.lk.response == C.Empty && n.handlers == []
      && (q != [] ==> n.pc[q[0]] == ForRelease(true) || n.pc[q[0]] == ForTurn(true))
    case Free =>
      && q == [] && n.handlers == [] && RevokeKept(r, n) && n.lk.response == C.Empty
    case Locked =>
      && q != [] && n.handlers == [] && RevokeKept(r, n)
      && (n.pc[q[0]].Held? || n.pc[q[0]] == ForTurn(true))
    case Acquiring =>
      && q != [] && n.handlers == []
      && (match n.pc[q[0]]
          case AcquireSent => (r == Stranger || r == Chosen) && Quiet(n) && n.lk.response == C.Empty
          case AcquireGranted => RevokeKept(r, n)
          case AcquireRefused => RetryKept(r, n)
          case ForRetry(woken) => RetryKept(r, n) && woken == (n.lk.response == C.Retry)
          case _ => false)
    case Releasing =>
      && Quiet(n)
      && if n.handlers == [] then q != [] && n.lk.response == C.Revoke && GivingBack(r, n.pc[q[0]])
         else && |n.handlers| == 1 && n.lk.response == C.Empty && GivingBack(r, n.handlers[0])
              && (q != [] ==> n.pc[q[0]] == ForRelease(false))
  }

  /** The program counter of whoever gives the lock back, if anyone does. */
  function Progress(n: Node): Pc {
    if n.lk.state != C.Releasing then Idle
    else if n.handlers != [] then n.handlers[0]
    else if n.lk.queue != [] && n.lk.queue[0] in n.pc then n.pc[n.lk.queue[0]]
    else Idle
  }

  predicate Clean(file: Option<E.CachedFile>) {
    file.Some? ==> !file.value.bufValid && !file.value.attrValid && !file.value.dirty
  }

  /** An entry at the owner: what is valid or dirty in it is what was last put. */
  predicate Current(file: Option<E.CachedFile>, kind: nat, last: E.Bytes) {
    file.Some? ==>
      var f := file.value;
      && f.bufValid == f.attrValid
      && (f.bufValid ==> f.buf == last && f.attr == E.AttrOf(E.Extent(kind, last)))
      && (f.dirty ==> f.bufValid)
  }

  predicate Invalidated(file: Option<E.CachedFile>, last: E.Bytes) {
    file.Some? ==> !file.value.bufValid && !file.value.attrValid && (file.value.dirty ==> file.value.buf == last)
  }

  /** Only the owner has anything valid or dirty, and only until it writes back. */
  ghost predicate FileInv(r: Role, n: Node, kind: nat, last: E.Bytes) {
    && (if r.Owner? && Progress(n) != ReleaseSent then
          if Progress(n) == SyncWrite then Invalidated(n.file, last) else Current(n.file, kind, last)
        else Clean(n.file))
    && forall t :: t in n.pc && n.pc[t] == Held(true) ==> n.file.Some? && n.file.value.bufValid
  }

  /** The server's copy is what was last put unless the owner has yet to write it back. */
  predicate ExtentInv(s: State, last: E.Bytes)
  {
    (s.server.holding.Some? && s.server.holding.value in s.nodes && E.Dirty(s.nodes[s.server.holding.value].file))
    || s.extent.bytes == last
  }

  ghost predicate NodeOk(s: State, last: E.Bytes, c: ClientId)
    requires c in s.nodes
  {
    && NodeInv(RoleOf(s.server, c), s.nodes[c])
    && FileInv(RoleOf(s.server, c), s.nodes[c], s.extent.kind, last)
  }

  ghost predicate Inv(s: State, last: E.Bytes) {
    && ServerInv(s.server, s.nodes.Keys)
    && (forall c :: c in s.nodes ==> NodeOk(s, last, c))
    && ExtentInv(s, last)
  }

  lemma InitialInv(s: State)
    requires Initial(s)
    ensures Inv(s, s.extent.bytes)
  {
  }

  lemma OtherUnaffected(s: State, s': State, last: E.Bytes, last': E.Bytes, d: ClientId)
    requires d in s.nodes && NodeOk(s, last, d)
    requires d in s'.nodes && s'.nodes[d] == s.nodes[d] && s'.server == s.server && s'.extent.kind == s.extent.kind
    requires last' == last || s.server.holding != Some(d)
    ensures NodeOk(s', last', d)
  {
  }

  /** What a step of one client must keep when the server's record is untouched. */
  lemma NodeChanged(s: State, c: ClientId, n: Node, e: E.Extent, last: E.Bytes, last': E.Bytes)
    requires Inv(s, last) && c in s.nodes && e.kind == s.extent.kind
    requires NodeInv(RoleOf(s.server, c), n)
    requires FileInv(RoleOf(s.server, c), n, e.kind, last')
    requires last' == last || s.server.holding == Some(c)
    requires s.server.holding == Some(c) ==> E.Dirty(n.file) || e.bytes == last'
    requires s.server.holding == Some(c) || e == s.extent
    ensures Inv(State(s.server, s.nodes[c := n], e), last')
  {
    var s' := State(s.server, s.nodes[c := n], e);
    assert s'.nodes.Keys == s.nodes.Keys;
    forall d | d in s'.nodes
      ensures NodeOk(s', last', d)
    {
      if d != c {
        OtherUnaffected(s, s', last, last', d);
      }
    }
  }
}

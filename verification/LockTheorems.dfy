/** What the caching lock protocol guarantees over every run. */
module LockTheorems {
  import opened Options
  import C = LockClientCache
  import S = LockServerCache
  import E = ExtentClient
  import opened LockProtocol
  import opened LockInvariant
  import opened LockSteps

  lemma {:induction false} PrefixRuns(s: State, ls: seq<Label>, k: nat)
    requires Run(s, ls) && k <= |ls|
    ensures Run(s, ls[..k])
    ensures k < |ls| ==> Enabled(After(s, ls[..k]), ls[k])
    decreases |ls|
  {
    if k == |ls| {
      assert ls[..k] == ls;
    } else if k == |ls| - 1 {
      assert Most(ls) == ls[..k];
    } else {
      PrefixRuns(s, Most(ls), k);
      assert Most(ls)[..k] == ls[..k];
    }
  }

  // Cache coherence.

  /** The bytes that a get would return here. */
  function BytesRead(s: State, l: Label): E.Bytes
    requires Enabled(s, l) && l.act.Get?
  {
    E.Get(s.nodes[l.c].file, s.extent, l.act.junk).buf
  }

  function AttrRead(s: State, l: Label): E.Attr
    requires Enabled(s, l) && l.act.GetAttr?
  {
    E.GetAttr(s.nodes[l.c].file, s.extent, l.act.junk).attr
  }

  lemma ReadsAreCurrent(s: State, l: Label, last: E.Bytes)
    requires Inv(s, last) && Enabled(s, l)
    ensures l.act.Get? ==> BytesRead(s, l) == last
    ensures l.act.GetAttr? ==> AttrRead(s, l) == E.Attr(s.extent.kind, E.SizeOf(last))
  {
    if UsesFile(l.act) {
      assert NodeOk(s, last, l.c);
      FileStepKeeps(RoleOf(s.server, l.c), s.nodes[l.c], l.act, s.extent);
      FileStepCurrent(RoleOf(s.server, l.c), s.nodes[l.c], l.act, s.extent, last);
    }
  }

  /** Each get, on any client, returns what the last put on any client wrote, and
      each getattr the size of that. */
  lemma Coherence(s: State, ls: seq<Label>, k: nat)
    requires Initial(s) && Run(s, ls) && k < |ls|
    ensures Run(s, ls[..k]) && Enabled(After(s, ls[..k]), ls[k])
    ensures ls[k].act.Get? ==> BytesRead(After(s, ls[..k]), ls[k]) == LastPut(ls[..k], s.extent.bytes)
    ensures ls[k].act.GetAttr? ==>
              AttrRead(After(s, ls[..k]), ls[k]) ==
              E.Attr(After(s, ls[..k]).extent.kind, E.SizeOf(LastPut(ls[..k], s.extent.bytes)))
  {
    PrefixRuns(s, ls, k);
    RunKeeps(s, ls[..k]);
    ReadsAreCurrent(After(s, ls[..k]), ls[k], LastPut(ls[..k], s.extent.bytes));
  }

  lemma {:induction false} KindStays(s: State, ls: seq<Label>)
    requires Run(s, ls)
    ensures After(s, ls).extent.kind == s.extent.kind
    decreases |ls|
  {
    if ls != [] {
      KindStays(s, Most(ls));
    }
  }

  /** Each getattr, on any client, answers with the kind of the extent and the length of
      what the last put on any client wrote, cut to 32 bits. */
  lemma AttrIsCurrent(s: State, ls: seq<Label>, k: nat)
    requires Initial(s) && Run(s, ls) && k < |ls| && ls[k].act.GetAttr?
    ensures Run(s, ls[..k]) && Enabled(After(s, ls[..k]), ls[k])
    ensures AttrRead(After(s, ls[..k]), ls[k]).kind == s.extent.kind
    ensures AttrRead(After(s, ls[..k]), ls[k]).size == |LastPut(ls[..k], s.extent.bytes)| % 0x1_0000_0000
    ensures |LastPut(ls[..k], s.extent.bytes)| < 0x1_0000_0000 ==>
              AttrRead(After(s, ls[..k]), ls[k]).size == |LastPut(ls[..k], s.extent.bytes)|
  {
    Coherence(s, ls, k);
    KindStays(s, ls[..k]);
  }

  /** A valid or dirty entry exists only at the client that the server counts as
      owner, and none is left once the release RPC is under way. */
  lemma OnlyOwnerCaches(s: State, ls: seq<Label>, c: ClientId)
    requires Initial(s) && Run(s, ls) && c in After(s, ls).nodes
    ensures var here := After(s, ls);
            !Clean(here.nodes[c].file) ==> here.server.holding == Some(c) && Progress(here.nodes[c]) != ReleaseSent
  {
    RunKeeps(s, ls);
    assert NodeOk(After(s, ls), LastPut(ls, s.extent.bytes), c);
  }

  // Mutual exclusion.

  lemma HolderIsOwner(s: State, last: E.Bytes, c: ClientId, t: Tid)
    requires Inv(s, last) && HoldsLock(s, c, t)
    ensures s.server.holding == Some(c) && s.nodes[c].lk.state == C.Locked
    ensures s.nodes[c].lk.queue != [] && s.nodes[c].lk.queue[0] == t
  {
    assert NodeOk(s, last, c);
    WokenIsFront(RoleOf(s.server, c), s.nodes[c], t);
  }

  lemma AtMostOneHolder(s: State, last: E.Bytes)
    requires Inv(s, last)
    ensures forall c, t, d, u :: HoldsLock(s, c, t) && HoldsLock(s, d, u) ==> c == d && t == u
  {
    forall c, t, d, u | HoldsLock(s, c, t) && HoldsLock(s, d, u)
      ensures c == d && t == u
    {
      HolderIsOwner(s, last, c, t);
      HolderIsOwner(s, last, d, u);
    }
  }

  /** At most one thread over all clients is between acquire and release. */
  lemma MutualExclusion(s: State, ls: seq<Label>)
    requires Initial(s) && Run(s, ls)
    ensures forall c, t, d, u :: HoldsLock(After(s, ls), c, t) && HoldsLock(After(s, ls), d, u) ==> c == d && t == u
  {
    RunKeeps(s, ls);
    AtMostOneHolder(After(s, ls), LastPut(ls, s.extent.bytes));
  }

  /** Where the right to use the lock can be. */
  datatype Place = AtServer | GrantUnderWay(c: ClientId) | AtClient(c: ClientId) | ReleaseUnderWay(c: ClientId)

  predicate SomeoneAt(n: Node, p: Pc) {
    p in n.handlers || exists t :: t in n.pc && n.pc[t] == p
  }

  predicate TokenAt(s: State, p: Place) {
    match p
    case AtServer => s.server.state == S.Unheld || s.server.state == S.Retrying
    case GrantUnderWay(c) => c in s.nodes && SomeoneAt(s.nodes[c], AcquireGranted)
    case AtClient(c) =>
      && c in s.nodes
      && (|| s.nodes[c].lk.state == C.Free || s.nodes[c].lk.state == C.Locked
          || SomeoneAt(s.nodes[c], SyncStart) || SomeoneAt(s.nodes[c], SyncWrite))
    case ReleaseUnderWay(c) => c in s.nodes && SomeoneAt(s.nodes[c], ReleaseSent)
  }

  /** The token is at the server unless the server has an owner on its record; then
      the owner's own state says where it is. */
  function WhereIs(s: State): Place {
    if s.server.holding.None? then AtServer
    else
      var h := s.server.holding.value;
      if h !in s.nodes then AtServer
      else if s.nodes[h].lk.state == C.Acquiring then GrantUnderWay(h)
      else if Progress(s.nodes[h]) == ReleaseSent then ReleaseUnderWay(h)
      else AtClient(h)
  }

  lemma TokenOfClient(r: Role, n: Node)
    requires NodeInv(r, n)
    ensures SomeoneAt(n, AcquireGranted) <==> r.Owner? && n.lk.state == C.Acquiring
    ensures SomeoneAt(n, ReleaseSent) <==> r.Owner? && Progress(n) == ReleaseSent
    ensures (n.lk.state == C.Free || n.lk.state == C.Locked || SomeoneAt(n, SyncStart) || SomeoneAt(n, SyncWrite))
            <==> r.Owner? && n.lk.state != C.Acquiring && Progress(n) != ReleaseSent
  {
    forall p | p in {AcquireGranted, ReleaseSent, SyncStart, SyncWrite}
      ensures SomeoneAt(n, p) <==> (n.handlers == [p] || (n.lk.queue != [] && n.pc[n.lk.queue[0]] == p))
    {
      if t :| t in n.pc && n.pc[t] == p {
        WokenIsFront(r, n, t);
      }
    }
  }

  lemma TokenOfState(s: State, last: E.Bytes, p: Place)
    requires Inv(s, last)
    ensures TokenAt(s, p) <==> p == WhereIs(s)
  {
    if !p.AtServer? {
      if p.c in s.nodes {
        assert NodeOk(s, last, p.c);
        TokenOfClient(RoleOf(s.server, p.c), s.nodes[p.c]);
        TokenOfOwner(s, p);
      }
    }
  }

  lemma TokenOfOwner(s: State, p: Place)
    requires !p.AtServer? && p.c in s.nodes
    requires s.server.holding.Some? ==> s.server.holding.value in s.nodes
    ensures p == WhereIs(s) <==>
            && RoleOf(s.server, p.c).Owner?
            && match p
               case GrantUnderWay(c) => s.nodes[c].lk.state == C.Acquiring
               case ReleaseUnderWay(c) => s.nodes[c].lk.state != C.Acquiring && Progress(s.nodes[c]) == ReleaseSent
               case AtClient(c) => s.nodes[c].lk.state != C.Acquiring && Progress(s.nodes[c]) != ReleaseSent
  {
  }

  lemma ServedReleaseIsOwners(s: State, last: E.Bytes, l: Label)
    requires Inv(s, last) && Enabled(s, l) && l.act.ServeRelease?
    ensures s.server.holding == Some(l.c)
  {
    assert NodeOk(s, last, l.c);
    ActorRole(RoleOf(s.server, l.c), s.nodes[l.c], l.act.a);
  }

  /** In every reachable state the token is in exactly one place, and the server
      handles a release only from the client it has on record as holding. */
  lemma ExactlyOneToken(s: State, ls: seq<Label>)
    requires Initial(s) && Run(s, ls)
    ensures forall p :: TokenAt(After(s, ls), p) <==> p == WhereIs(After(s, ls))
    ensures forall l :: Enabled(After(s, ls), l) && l.act.ServeRelease? ==> After(s, ls).server.holding == Some(l.c)
  {
    RunKeeps(s, ls);
    var here, last := After(s, ls), LastPut(ls, s.extent.bytes);
    forall p
      ensures TokenAt(here, p) <==> p == WhereIs(here)
    {
      TokenOfState(here, last, p);
    }
    forall l | Enabled(here, l) && l.act.ServeRelease?
      ensures here.server.holding == Some(l.c)
    {
      ServedReleaseIsOwners(here, last, l);
    }
  }

  // Nothing gets lost.

  predicate GivingUp(n: Node) {
    Progress(n) in {SyncStart, SyncWrite, ReleaseSent}
  }

  predicate Reasking(n: Node) {
    n.lk.queue != [] && n.lk.queue[0] in n.pc && n.pc[n.lk.queue[0]] == AcquireSent
  }

  /** `revoking` and `retrying` are backed by the client concerned. */
  predicate ServerBacked(s: State) {
    && (s.server.state == S.Revoking ==>
          && s.server.holding.Some? && s.server.holding.value in s.nodes
          && var n := s.nodes[s.server.holding.value];
             n.revokes == 1 || n.lk.response == C.Revoke || GivingUp(n))
    && (s.server.state == S.Retrying ==>
          && s.server.retrying.Some? && s.server.retrying.value in s.nodes
          && var n := s.nodes[s.server.retrying.value];
             n.retries == 1 || n.lk.response == C.Retry || Reasking(n))
  }

  /** A callback under way is the only one and finds its client in the role it was sent for. */
  predicate CallbackBacked(s: State, c: ClientId)
    requires c in s.nodes
  {
    && (s.nodes[c].revokes > 0 ==>
          s.nodes[c].revokes == 1 && s.server.state == S.Revoking && s.server.holding == Some(c))
    && (s.nodes[c].retries > 0 ==>
          s.nodes[c].retries == 1 && s.server.state == S.Retrying && s.server.retrying == Some(c))
  }

  lemma BackedByInv(s: State, last: E.Bytes)
    requires Inv(s, last)
    ensures ServerBacked(s)
  {
    if s.server.holding.Some? {
      assert NodeOk(s, last, s.server.holding.value);
    }
    if s.server.retrying.Some? {
      assert NodeOk(s, last, s.server.retrying.value);
    }
  }

  lemma CallbackByInv(s: State, last: E.Bytes, c: ClientId)
    requires Inv(s, last) && c in s.nodes
    ensures CallbackBacked(s, c)
  {
    assert NodeOk(s, last, c);
  }

  /** A revoke or retry that the server counts on has not been lost: it is under
      way, recorded at the client, or being acted on.  And none is sent in vain. */
  lemma NothingLost(s: State, ls: seq<Label>)
    requires Initial(s) && Run(s, ls)
    ensures ServerBacked(After(s, ls))
    ensures forall c :: c in After(s, ls).nodes ==> CallbackBacked(After(s, ls), c)
  {
    RunKeeps(s, ls);
    BackedByInv(After(s, ls), LastPut(ls, s.extent.bytes));
    forall c | c in After(s, ls).nodes
      ensures CallbackBacked(After(s, ls), c)
    {
      CallbackByInv(After(s, ls), LastPut(ls, s.extent.bytes), c);
    }
  }

  /** A client that was told RETRY is still on the server's books; the holder never
      waits for itself; and whoever waits, the server is working on it. */
  lemma NobodyForgotten(s: State, ls: seq<Label>)
    requires Initial(s) && Run(s, ls)
    ensures var here := After(s, ls);
            && (forall c, t :: c in here.nodes && t in here.nodes[c].pc
                  && (here.nodes[c].pc[t] == AcquireRefused || here.nodes[c].pc[t].ForRetry?)
                  ==> c in here.server.waiting || here.server.retrying == Some(c))
            && (here.server.holding.Some? ==> here.server.holding.value !in here.server.waiting)
            && (here.server.waiting != {} ==> here.server.state == S.Revoking || here.server.state == S.Retrying)
  {
    RunKeeps(s, ls);
    var here, last := After(s, ls), LastPut(ls, s.extent.bytes);
    forall c, t | c in here.nodes && t in here.nodes[c].pc
                  && (here.nodes[c].pc[t] == AcquireRefused || here.nodes[c].pc[t].ForRetry?)
      ensures c in here.server.waiting || here.server.retrying == Some(c)
    {
      assert NodeOk(here, last, c);
      WokenIsFront(RoleOf(here.server, c), here.nodes[c], t);
    }
  }

  /** A refused client is among those that wait; a client is granted the lock exactly
      when nobody has it and no other client was chosen. */
  predicate AnswersInOrder(s: State, c: ClientId, s': State) {
    && (s'.server.holding == Some(c) <==> s.server.state == S.Unheld || s.server.retrying == Some(c))
    && (s'.server.holding != Some(c) ==> c in s'.server.waiting)
  }

  /** The least of the waiting clients is told to try again and waits no longer, and no
      other client is told anything; if none waits, the lock is free. */
  ghost predicate RetriesInOrder(s: State, s': State) {
    && s'.server.holding == None && s'.nodes.Keys == s.nodes.Keys
    && (s.server.waiting == {} ==> s'.server.state == S.Unheld)
    && forall m :: S.IsLeast(m, s.server.waiting) ==> RetriedFirst(s, m, s')
  }

  predicate RetriedFirst(s: State, m: ClientId, s': State) {
    && s'.server.retrying == Some(m) && s'.server.waiting == s.server.waiting - {m}
    && forall d :: d in s.nodes && d in s'.nodes ==>
         s'.nodes[d].retries == s.nodes[d].retries + if d == m then 1 else 0
  }

  lemma ReleasedInOrder(s: State, l: Label)
    requires Enabled(s, l) && l.act.ServeRelease?
    ensures RetriesInOrder(s, Step(s, l))
  {
    StepIs(s, l);
    forall m: ClientId | S.IsLeast(m, s.server.waiting)
      ensures RetriedFirst(s, m, Step(s, l))
    {
      S.ReleaseAnswers(s.server, m);
      assert RetryTo(s, l) == Some(m);
    }
    if s.server.waiting == {} {
      S.ReleaseToNobody(s.server);
    }
  }

  /** The server's own order, in every step of every run. */
  lemma ServerKeepsOrder(s: State, ls: seq<Label>, l: Label)
    requires Initial(s) && Run(s, ls) && Enabled(After(s, ls), l)
    ensures l.act.ServeAcquire? ==> AnswersInOrder(After(s, ls), l.c, Step(After(s, ls), l))
    ensures l.act.ServeRelease? ==> RetriesInOrder(After(s, ls), Step(After(s, ls), l))
  {
    if l.act.ServeAcquire? {
      RunKeeps(s, ls);
      GrantedIff(After(s, ls), LastPut(ls, s.extent.bytes), l);
    } else if l.act.ServeRelease? {
      ReleasedInOrder(After(s, ls), l);
    }
  }

  lemma GrantedIff(s: State, last: E.Bytes, l: Label)
    requires Inv(s, last) && Enabled(s, l) && l.act.ServeAcquire?
    ensures AnswersInOrder(s, l.c, Step(s, l))
  {
    assert NodeOk(s, last, l.c);
    CallerAfterAcquire(s, l, last);
    S.AcquireAnswers(s.server, l.c);
  }

  /** The NOENT exits of acquire and rpc_acquire are never taken. */
  lemma DeadBranches(s: State, ls: seq<Label>, c: ClientId, t: Tid)
    requires Initial(s) && Run(s, ls)
    requires c in After(s, ls).nodes && t in After(s, ls).nodes[c].pc
    ensures After(s, ls).nodes[c].pc[t] != Failed
  {
    RunKeeps(s, ls);
    var here := After(s, ls);
    assert NodeOk(here, LastPut(ls, s.extent.bytes), c);
    if here.nodes[c].pc[t] == Failed {
      WokenIsFront(RoleOf(here.server, c), here.nodes[c], t);
    }
  }

  // Revocation and local hand-over.

  /** A recorded revoke stays recorded, with the lock never free, until the lock
      has been given back. */
  predicate RevokeSurvives(n: Node, n': Node, act: Option<Act>) {
    n.lk.response == C.Revoke ==>
      && n'.lk.state != C.Free
      && (n'.lk.response == C.Revoke
          || (act.Some? && act.value.EndRelease? && n.lk.state == C.Releasing && n'.lk.state == C.Absent))
  }

  lemma RevocationSurvives(s: State, ls: seq<Label>, l: Label, c: ClientId)
    requires Initial(s) && Run(s, ls) && Enabled(After(s, ls), l) && c in After(s, ls).nodes
    ensures var n := After(s, ls).nodes[c]; n.lk.state == C.Free ==> n.lk.queue == [] && n.lk.response != C.Revoke
    ensures c in Step(After(s, ls), l).nodes
    ensures var n, n' := After(s, ls).nodes[c], Step(After(s, ls), l).nodes[c];
            RevokeSurvives(n, n', if l.c == c then Some(l.act) else None)
  {
    RunKeeps(s, ls);
    SurvivesByInv(After(s, ls), LastPut(ls, s.extent.bytes), l, c);
  }

  lemma SurvivesByInv(s: State, last: E.Bytes, l: Label, c: ClientId)
    requires Inv(s, last) && Enabled(s, l) && c in s.nodes
    ensures s.nodes[c].lk.state == C.Free ==> s.nodes[c].lk.queue == [] && s.nodes[c].lk.response != C.Revoke
    ensures c in Step(s, l).nodes
    ensures RevokeSurvives(s.nodes[c], Step(s, l).nodes[c], if l.c == c then Some(l.act) else None)
  {
    assert NodeOk(s, last, c);
    StepAt(s, l, c);
    if l.c == c && s.nodes[c].lk.response == C.Revoke {
      RecordedRevokeStays(RoleOf(s.server, c), s.nodes[c], l.act, s.extent, Granted(s, l));
    }
  }

  lemma RecordedRevokeStays(r: Role, n: Node, act: Act, e: E.Extent, granted: bool)
    requires NodeInv(r, n) && CanAct(n, act) && n.lk.response == C.Revoke
    ensures RevokeSurvives(n, LocalStep(n, act, e, granted), Some(act))
  {
    match act {
      case Wake(t) => WokenIsFront(r, n, t);
      case TakeAnswer(t) => WokenIsFront(r, n, t);
      case BeginRelease(t) => WokenIsFront(r, n, t);
      case EndRelease(a) => ActorRole(r, n, a);
      case _ =>
    }
  }
}

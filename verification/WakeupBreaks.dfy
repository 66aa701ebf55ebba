/**
 When an unasked wakeup breaks exclusion: ordinary steps from there on lead to two
 holders.  If the thread at the head of the queue has been told that the lock was
 given back, that takes the woken thread getting the lock from the server, which it
 can once all other clients are done with it.
 */
module WakeupBreaks {
  import opened Options
  import C = LockClientCache
  import S = LockServerCache
  import E = ExtentClient
  import opened LockProtocol
  import opened LockInvariant
  import opened LockSteps
  import opened LockTheorems
  import opened LockRefinement
  import opened LockProgress
  import opened UnaskedWakeup

  // The client has the lock.

  lemma BreaksWhenLocked(s: State, last: E.Bytes, c: ClientId, t: Tid)
    requires Inv(s, last) && SleepsBehind(s, c, t) && s.nodes[c].lk.state == C.Locked
    ensures CanLoseExclusion(GoOnUnasked(s, c, t))
  {
    var s', f := GoOnUnasked(s, c, t), s.nodes[c].lk.queue[0];
    assert NodeOk(s, last, c);
    GoOnIs(s, c, t);
    assert HoldsLock(s', c, t);
    if HoldsLock(s', c, f) {
      assert Run(s', []) && TwoHold(After(s', []));
    } else {
      RunOn(s', [], Label(c, Wake(f)));
      assert HoldsLock(After(s', [Label(c, Wake(f))]), c, f) && HoldsLock(After(s', [Label(c, Wake(f))]), c, t);
    }
  }

  // Letting all other clients finish.

  /** Threads that have yet to get the lock and release it. */
  function Unfinished(n: Node): set<Tid> {
    set t | t in n.pc && n.pc[t] !in {Idle, SyncStart, SyncWrite, ReleaseSent, ReleaseDone}
  }

  function UnfinishedCounts(s: State): (m: map<ClientId, nat>)
    ensures m.Keys == s.nodes.Keys
  {
    map c | c in s.nodes :: |Unfinished(s.nodes[c])|
  }

  ghost function Work(s: State): nat {
    Sum(UnfinishedCounts(s))
  }

  /** A client's way to be done with the lock: no new calls of acquire. */
  predicate Finishing(act: Act) {
    Internal(act) || act.BeginRelease?
  }

  lemma UnfinishedOfStep(n: Node, act: Act, e: E.Extent, granted: bool)
    requires CanAct(n, act) && Finishing(act)
    ensures Unfinished(LocalStep(n, act, e, granted)) <= Unfinished(n)
    ensures act.BeginRelease? ==> Unfinished(LocalStep(n, act, e, granted)) < Unfinished(n)
  {
    if act.BeginRelease? {
      assert act.t in Unfinished(n) && act.t !in Unfinished(LocalStep(n, act, e, granted));
    }
  }

  lemma FewerElements(a: set<Tid>, b: set<Tid>)
    requires a <= b
    ensures |a| <= |b| && (a < b ==> |a| < |b|)
  {
    assert b == a + (b - a);
    if a < b {
      var x :| x in b && x !in a;
      assert x in b - a;
    }
  }

  lemma CountOfStep(s: State, l: Label, d: ClientId)
    requires Enabled(s, l) && Finishing(l.act) && d in s.nodes
    ensures d in UnfinishedCounts(Step(s, l)) && UnfinishedCounts(Step(s, l))[d] <= UnfinishedCounts(s)[d]
    ensures d == l.c && l.act.BeginRelease? ==> UnfinishedCounts(Step(s, l))[d] < UnfinishedCounts(s)[d]
  {
    StepAt(s, l, d);
    if d == l.c {
      UnfinishedOfStep(s.nodes[d], l.act, s.extent, Granted(s, l));
      FewerElements(Unfinished(Step(s, l).nodes[d]), Unfinished(s.nodes[d]));
    }
  }

  lemma WorkFalls(s: State, l: Label)
    requires Enabled(s, l) && Finishing(l.act)
    ensures Work(Step(s, l)) <= Work(s) && (l.act.BeginRelease? ==> Work(Step(s, l)) < Work(s))
  {
    KeysKept(s, l);
    var was, now := UnfinishedCounts(s), UnfinishedCounts(Step(s, l));
    forall d | d in was
      ensures now[d] <= was[d]
    {
      CountOfStep(s, l, d);
    }
    SumLess(was, now);
    if l.act.BeginRelease? {
      CountOfStep(s, l, l.c);
      SumStrictlyLess(was, now, l.c);
    }
  }

  predicate Spares(ls: seq<Label>, c: ClientId) {
    forall k :: 0 <= k < |ls| ==> ls[k].c != c
  }

  predicate CanFinish(s: State, c: ClientId, l: Label) {
    Enabled(s, l) && l.c != c && Finishing(l.act)
  }

  ghost predicate OthersRest(s: State, c: ClientId) {
    forall l :: !CanFinish(s, c, l)
  }

  lemma FinishingStep(s: State, last: E.Bytes, l: Label)
    requires Inv(s, last) && Enabled(s, l) && Finishing(l.act)
    ensures Inv(Step(s, l), last)
    ensures Work(Step(s, l)) < Work(s) || (Work(Step(s, l)) == Work(s) && Total(Step(s, l)) < Total(s))
  {
    StepKeeps(s, l, last);
    WorkFalls(s, l);
    if !l.act.BeginRelease? {
      TotalFalls(s, last, l);
    }
  }

  lemma {:induction false} RunAfter(s: State, l: Label, ls: seq<Label>)
    requires Enabled(s, l) && Run(Step(s, l), ls)
    ensures Run(s, [l] + ls) && After(s, [l] + ls) == After(Step(s, l), ls)
    decreases |ls|
  {
    if ls == [] {
      RunOn(s, [], l);
      assert [] + [l] == [l] + ls;
    } else {
      RunAfter(s, l, Most(ls));
      RunOn(s, [l] + Most(ls), Last(ls));
      assert [l] + Most(ls) + [Last(ls)] == [l] + ls;
    }
  }

  /** A run of the other clients to the point where none of their threads is inside. */
  ghost predicate Finishes(s: State, last: E.Bytes, c: ClientId, ls: seq<Label>) {
    Run(s, ls) && Spares(ls, c) && Inv(After(s, ls), last) && OthersRest(After(s, ls), c)
  }

  lemma FinishesAfter(s: State, last: E.Bytes, c: ClientId, l: Label, ls: seq<Label>)
    requires CanFinish(s, c, l) && Finishes(Step(s, l), last, c, ls)
    ensures Finishes(s, last, c, [l] + ls)
  {
    RunAfter(s, l, ls);
  }

  lemma {:induction false} Finish(s: State, last: E.Bytes, c: ClientId) returns (ls: seq<Label>)
    requires Inv(s, last)
    ensures Finishes(s, last, c, ls)
    decreases Work(s), Total(s)
  {
    if l :| CanFinish(s, c, l) {
      FinishingStep(s, last, l);
      ls := Finish(Step(s, l), last, c);
      FinishesAfter(s, last, c, l, ls);
      ls := [l] + ls;
    } else {
      ls := [];
    }
  }

  /** Then a client that was refused is the one that the server has chosen. */
  lemma RefusedIsChosen(s: State, last: E.Bytes, c: ClientId)
    requires Inv(s, last) && OthersRest(s, c) && c in s.nodes && RoleOf(s.server, c) in {Queued, Chosen}
    ensures s.server.state == S.Retrying && s.server.retrying == Some(c)
  {
    if RoleOf(s.server, c) == Queued {
      var d := if s.server.state == S.Revoking then s.server.holding.value else s.server.retrying.value;
      RestsWithout(s, last, c, d);
    }
  }

  lemma RestsWithout(s: State, last: E.Bytes, c: ClientId, d: ClientId)
    requires Inv(s, last) && OthersRest(s, c) && d in s.nodes && d != c
    ensures RoleOf(s.server, d) != Chosen && RoleOf(s.server, d) != Owner(true)
  {
    var n := s.nodes[d];
    assert NodeOk(s, last, d);
    OwnMoveWorks(RoleOf(s.server, d), n);
    if OwnMove(n).Some? {
      assert CanFinish(s, c, Label(d, OwnMove(n).value));
    } else if FrontHolds(n) {
      assert CanFinish(s, c, Label(d, BeginRelease(n.lk.queue[0])));
    }
  }

  // The same steps beside another state of the client that is spared.

  predicate Twins(s: State, s': State, c: ClientId) {
    && s'.server == s.server && s'.extent == s.extent && s'.nodes.Keys == s.nodes.Keys && c in s.nodes
    && (forall d :: d in s.nodes && d != c ==> s'.nodes[d] == s.nodes[d])
    && s'.nodes[c].revokes == s.nodes[c].revokes && s'.nodes[c].retries == s.nodes[c].retries
  }

  lemma TwinsStep(s: State, s': State, c: ClientId, l: Label)
    requires Twins(s, s', c) && Enabled(s, l) && l.c != c
    ensures Enabled(s', l) && Twins(Step(s, l), Step(s', l), c)
    ensures SameButCallbacks(s.nodes[c], Step(s, l).nodes[c]) && SameButCallbacks(s'.nodes[c], Step(s', l).nodes[c])
  {
    StepIs(s, l);
    StepIs(s', l);
  }

  lemma {:induction false} TwinsRun(s: State, s': State, c: ClientId, ls: seq<Label>)
    requires Twins(s, s', c) && Run(s, ls) && Spares(ls, c)
    ensures Run(s', ls) && Twins(After(s, ls), After(s', ls), c)
    ensures SameButCallbacks(s.nodes[c], After(s, ls).nodes[c]) && SameButCallbacks(s'.nodes[c], After(s', ls).nodes[c])
    decreases |ls|
  {
    if ls != [] {
      TwinsRun(s, s', c, Most(ls));
      TwinsStep(After(s, Most(ls)), After(s', Most(ls)), c, Last(ls));
    }
  }

  // The woken thread gets the lock, and then the thread at the head goes on.

  /** `f` is at the head, told to go on; `t` is at `p`. */
  predicate At(s: State, c: ClientId, f: Tid, t: Tid, st: C.ClientState, p: Pc) {
    && c in s.nodes && f != t && f in s.nodes[c].pc && t in s.nodes[c].pc
    && s.nodes[c].lk.state == st && s.nodes[c].lk.queue != [] && s.nodes[c].lk.queue[0] == f
    && s.nodes[c].pc[f] == ForTurn(true) && s.nodes[c].pc[t] == p
  }

  /** From the grant on. */
  lemma GrantedBreaks(s: State, ls: seq<Label>, c: ClientId, f: Tid, t: Tid)
    requires Run(s, ls) && At(After(s, ls), c, f, t, C.Acquiring, AcquireGranted)
    ensures CanLoseExclusion(s)
  {
    var taken := Label(c, TakeAnswer(t));
    RunOn(s, ls, taken);
    assert At(After(s, ls + [taken]), c, f, t, C.Locked, Held(false));
    RunOn(s, ls + [taken], Label(c, Wake(f)));
    var here := After(s, ls + [taken] + [Label(c, Wake(f))]);
    assert HoldsLock(here, c, f) && HoldsLock(here, c, t);
  }

  /** The server hears of `t` and grants or refuses. */
  lemma Served(s: State, ls: seq<Label>, c: ClientId, f: Tid, t: Tid)
    requires Run(s, ls) && At(After(s, ls), c, f, t, C.Acquiring, AcquireSent)
    ensures var l := Label(c, ServeAcquire(t));
            && Run(s, ls + [l]) && After(s, ls + [l]) == Step(After(s, ls), l)
            && At(After(s, ls + [l]), c, f, t, C.Acquiring,
                  if Granted(After(s, ls), l) then AcquireGranted else AcquireRefused)
  {
    var l := Label(c, ServeAcquire(t));
    RunOn(s, ls, l);
    StepIs(After(s, ls), l);
  }

  /** From the moment that the server has chosen the client on. */
  lemma ChosenBreaks(s: State, ls: seq<Label>, c: ClientId, f: Tid, t: Tid)
    requires Run(s, ls) && At(After(s, ls), c, f, t, C.Acquiring, AcquireRefused)
    requires After(s, ls).server.state == S.Retrying && After(s, ls).server.retrying == Some(c)
    requires After(s, ls).nodes[c].retries > 0
    ensures CanLoseExclusion(s)
  {
    var retried, taken := Label(c, TakeRetry), Label(c, TakeAnswer(t));
    RunOn(s, ls, retried);
    var ls1 := ls + [retried];
    assert At(After(s, ls1), c, f, t, C.Acquiring, AcquireRefused);
    RunOn(s, ls1, taken);
    var ls2 := ls1 + [taken];
    assert At(After(s, ls2), c, f, t, C.Acquiring, AcquireSent);
    Served(s, ls2, c, f, t);
    GrantedBreaks(s, ls2 + [Label(c, ServeAcquire(t))], c, f, t);
  }

  /** The client as it would be if `t` alone had called acquire. */
  function Alone(n: Node, t: Tid): Node {
    Node(C.ClientLock(C.Acquiring, C.Empty, [t]), map u | u in n.pc :: if u == t then AcquireSent else Idle,
         [], 0, 0, n.file)
  }

  lemma AloneNode(n: Node, t: Tid, kind: nat, last: E.Bytes)
    requires NodeInv(Stranger, n) && FileInv(Stranger, n, kind, last) && t in n.pc
    ensures NodeInv(Stranger, Alone(n, t)) && FileInv(Stranger, Alone(n, t), kind, last)
  {
  }

  lemma AloneIsFine(s: State, last: E.Bytes, c: ClientId, t: Tid)
    requires Inv(s, last) && SleepsBehind(s, c, t) && s.nodes[c].lk.state == C.Absent
    ensures Inv(s.(nodes := s.nodes[c := Alone(s.nodes[c], t)]), last)
  {
    assert NodeOk(s, last, c);
    AloneNode(s.nodes[c], t, s.extent.kind, last);
    NodeChanged(s, c, Alone(s.nodes[c], t), s.extent, last, last);
  }

  lemma AloneIsTwin(s: State, c: ClientId, t: Tid)
    requires SleepsBehind(s, c, t) && Quiet(s.nodes[c])
    ensures Twins(s.(nodes := s.nodes[c := Alone(s.nodes[c], t)]), GoOnUnasked(s, c, t), c)
  {
    GoOnIs(s, c, t);
  }

  lemma TwinsAsk(s: State, s': State, c: ClientId, t: Tid)
    requires Twins(s, s', c)
    requires t in s.nodes[c].pc && t in s'.nodes[c].pc && s.nodes[c].pc[t] == s'.nodes[c].pc[t] == AcquireSent
    ensures Twins(Step(s, Label(c, ServeAcquire(t))), Step(s', Label(c, ServeAcquire(t))), c)
  {
    StepIs(s, Label(c, ServeAcquire(t)));
    StepIs(s', Label(c, ServeAcquire(t)));
  }

  /** A client that was refused while it alone had asked, once the others are done. */
  lemma RefusedGetsRetry(s: State, last: E.Bytes, c: ClientId, t: Tid)
    requires Inv(s, last) && OthersRest(s, c) && c in s.nodes && t in s.nodes[c].pc
    requires s.nodes[c].pc[t] == AcquireRefused && s.nodes[c].lk == C.ClientLock(C.Acquiring, C.Empty, [t])
    ensures s.server.state == S.Retrying && s.server.retrying == Some(c) && s.nodes[c].retries == 1
  {
    assert NodeOk(s, last, c);
    RefusedIsChosen(s, last, c);
  }

  /** `s` is the real state, `m` the one in which `t` alone has asked. */
  lemma RefusedBreaks(m: State, last: E.Bytes, s: State, c: ClientId, f: Tid, t: Tid)
    requires Inv(m, last) && Twins(m, s, c) && At(s, c, f, t, C.Acquiring, AcquireRefused)
    requires t in m.nodes[c].pc && m.nodes[c].pc[t] == AcquireRefused
    requires m.nodes[c].lk == C.ClientLock(C.Acquiring, C.Empty, [t])
    ensures CanLoseExclusion(s)
  {
    var ls := Finish(m, last, c);
    TwinsRun(m, s, c, ls);
    RefusedGetsRetry(After(m, ls), last, c, t);
    ChosenBreaks(s, ls, c, f, t);
  }

  lemma AloneRefused(m: State, c: ClientId, t: Tid)
    requires Enabled(m, Label(c, ServeAcquire(t))) && !Granted(m, Label(c, ServeAcquire(t)))
    ensures var m' := Step(m, Label(c, ServeAcquire(t)));
            && c in m'.nodes && t in m'.nodes[c].pc && m'.nodes[c].pc[t] == AcquireRefused
            && m'.nodes[c].lk == m.nodes[c].lk
  {
    StepIs(m, Label(c, ServeAcquire(t)));
  }

  lemma BreaksLater(s: State, l: Label)
    requires Enabled(s, l) && CanLoseExclusion(Step(s, l))
    ensures CanLoseExclusion(s)
  {
    var ls :| Run(Step(s, l), ls) && TwoHold(After(Step(s, l), ls));
    RunAfter(s, l, ls);
  }

  lemma AskingRefused(m: State, last: E.Bytes, s: State, c: ClientId, f: Tid, t: Tid)
    requires Inv(m, last) && Twins(m, s, c) && At(s, c, f, t, C.Acquiring, AcquireSent)
    requires t in m.nodes[c].pc && m.nodes[c].pc[t] == AcquireSent
    requires m.nodes[c].lk == C.ClientLock(C.Acquiring, C.Empty, [t])
    requires !Granted(s, Label(c, ServeAcquire(t)))
    requires At(Step(s, Label(c, ServeAcquire(t))), c, f, t, C.Acquiring, AcquireRefused)
    ensures CanLoseExclusion(Step(s, Label(c, ServeAcquire(t))))
  {
    var l := Label(c, ServeAcquire(t));
    StepKeeps(m, l, last);
    TwinsAsk(m, s, c, t);
    AloneRefused(m, c, t);
    RefusedBreaks(Step(m, l), last, Step(s, l), c, f, t);
  }

  lemma AskingBreaks(m: State, last: E.Bytes, s: State, c: ClientId, f: Tid, t: Tid)
    requires Inv(m, last) && Twins(m, s, c) && At(s, c, f, t, C.Acquiring, AcquireSent)
    requires t in m.nodes[c].pc && m.nodes[c].pc[t] == AcquireSent
    requires m.nodes[c].lk == C.ClientLock(C.Acquiring, C.Empty, [t])
    ensures CanLoseExclusion(s)
  {
    var l := Label(c, ServeAcquire(t));
    Served(s, [], c, f, t);
    assert [] + [l] == [l];
    if Granted(s, l) {
      GrantedBreaks(s, [l], c, f, t);
    } else {
      AskingRefused(m, last, s, c, f, t);
      BreaksLater(s, l);
    }
  }

  /** The thread at the head of the queue was told that the lock was given back. */
  lemma BreaksWhenTold(s: State, last: E.Bytes, c: ClientId, t: Tid)
    requires Inv(s, last) && SleepsBehind(s, c, t) && s.nodes[c].lk.state == C.Absent && AtRisk(s.nodes[c])
    ensures CanLoseExclusion(GoOnUnasked(s, c, t))
  {
    AloneIsFine(s, last, c, t);
    assert NodeOk(s, last, c);
    AloneIsTwin(s, c, t);
    GoOnIs(s, c, t);
    AskingBreaks(s.(nodes := s.nodes[c := Alone(s.nodes[c], t)]), last,
                 GoOnUnasked(s, c, t), c, s.nodes[c].lk.queue[0], t);
  }
}

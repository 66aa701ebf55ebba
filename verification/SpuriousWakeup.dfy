/**
 Exactly when an unasked wakeup behind another local thread can cost mutual
 exclusion, and runs that get to each kind of such a state.
 */
module SpuriousWakeup {
  import opened Options
  import C = LockClientCache
  import S = LockServerCache
  import E = ExtentClient
  import opened LockProtocol
  import opened LockInvariant
  import opened LockSteps
  import opened LockRefinement
  import opened UnaskedWakeup
  import H = WakeupHarmless
  import A = TwoAskers
  import B = WakeupBreaks

  lemma LeavesUnless(s: State, c: ClientId, t: Tid)
    requires SleepsBehind(s, c, t) && (s.nodes[c].lk.state == C.Acquiring || s.nodes[c].lk.state == C.Releasing)
    ensures GoOnUnasked(s, c, t) == H.Without(s, c, t)
  {
    GoOnIs(s, c, t);
  }

  lemma NotAtRisk(s: State, last: E.Bytes, c: ClientId, t: Tid, ls: seq<Label>)
    requires Inv(s, last) && SleepsBehind(s, c, t) && !AtRisk(s.nodes[c]) && Run(GoOnUnasked(s, c, t), ls)
    ensures !TwoHold(After(GoOnUnasked(s, c, t), ls))
  {
    assert NodeOk(s, last, c);
    if s.nodes[c].lk.state == C.Absent {
      A.AskingBesideIsHarmless(s, last, c, t, ls);
    } else {
      LeavesUnless(s, c, t);
      H.FailureIsHarmless(s, last, c, t, ls);
    }
  }

  /** A thread that waits behind another one wakes unasked.  Ordinary steps can lead
      from there to two holders exactly when the client has the lock, whether a thread
      holds it at that moment or has only been told to go on, or when the thread at
      the head of the queue has been told that the lock was given back. */
  lemma BreaksExclusionIff(s: State, last: E.Bytes, c: ClientId, t: Tid)
    requires Inv(s, last) && SleepsBehind(s, c, t)
    ensures CanLoseExclusion(GoOnUnasked(s, c, t)) <==> AtRisk(s.nodes[c])
  {
    if AtRisk(s.nodes[c]) {
      if s.nodes[c].lk.state == C.Locked {
        B.BreaksWhenLocked(s, last, c, t);
      } else {
        B.BreaksWhenTold(s, last, c, t);
      }
    } else {
      forall ls | Run(GoOnUnasked(s, c, t), ls)
        ensures !TwoHold(After(GoOnUnasked(s, c, t), ls))
      {
        NotAtRisk(s, last, c, t, ls);
      }
    }
  }

  // Two threads of client 0, and client 1 that comes to want the lock.

  function Two(st: C.ClientState, response: C.Response, queue: seq<Tid>, p0: Pc, p1: Pc): Node {
    Node(C.ClientLock(st, response, queue), map[0 := p0, 1 := p1], [], 0, 0, None)
  }

  function One(st: C.ClientState, queue: seq<Tid>, p: Pc): Node {
    Node(C.ClientLock(st, C.Empty, queue), map[0 := p], [], 0, 0, None)
  }

  function With(sv: S.ServerLock, n0: Node, n1: Node): State {
    State(sv, map[0 := n0, 1 := n1], E.Extent(0, []))
  }

  const AWAY := One(C.Absent, [], Idle)
  const REFUSED := One(C.Acquiring, [0], AcquireRefused)
  const HELD_BY_0 := S.ServerLock(S.Locked, Some(0), None, {})
  const REVOKED_FROM_0 := S.ServerLock(S.Revoking, Some(0), None, {1})
  const CHOSEN_1 := S.ServerLock(S.Retrying, None, Some(1), {})

  const START := With(S.FreshLock, Two(C.Absent, C.Empty, [], Idle, Idle), AWAY)

  ghost predicate Reached(ls: seq<Label>, s: State) {
    Run(START, ls) && After(START, ls) == s
  }

  /** What a step does to each part. */
  predicate Leads(s: State, l: Label, s': State) {
    && s.nodes.Keys == s'.nodes.Keys == {0, 1} && Enabled(s, l)
    && ServerAfter(s, l) == s'.server && ExtentAfter(s, l) == s'.extent
    && NodeAfter(s, l, 0) == s'.nodes[0] && NodeAfter(s, l, 1) == s'.nodes[1]
  }

  lemma Extend(ls: seq<Label>, s: State, l: Label, s': State) returns (ls': seq<Label>)
    requires Reached(ls, s) && Leads(s, l, s')
    ensures Reached(ls', s')
  {
    StepIs(s, l);
    assert Step(s, l).nodes == s'.nodes;
    RunOn(START, ls, l);
    ls' := ls + [l];
  }

  /** What a stretch of code of client 0 does to it. */
  predicate Goes(n: Node, act: Act, n': Node) {
    CanAct(n, act) && Local(act) && LocalStep(n, act, E.Extent(0, []), false) == n'
  }

  lemma LeadsLocally(sv: S.ServerLock, n0: Node, n1: Node, act: Act, n0': Node)
    requires Goes(n0, act, n0')
    ensures Leads(With(sv, n0, n1), Label(0, act), With(sv, n0', n1))
  {
    assert Called(n0', false, false) == n0' && Called(n1, false, false) == n1;
  }

  lemma Take(ls: seq<Label>, sv: S.ServerLock, n0: Node, n1: Node, act: Act, n0': Node) returns (ls': seq<Label>)
    requires Reached(ls, With(sv, n0, n1)) && Goes(n0, act, n0')
    ensures Reached(ls', With(sv, n0', n1))
  {
    LeadsLocally(sv, n0, n1, act, n0');
    ls' := Extend(ls, With(sv, n0, n1), Label(0, act), With(sv, n0', n1));
  }

  const IDLE := Two(C.Absent, C.Empty, [], Idle, Idle)
  const ASKING := Two(C.Acquiring, C.Empty, [0], AcquireSent, Idle)
  const GRANTED := Two(C.Acquiring, C.Empty, [0], AcquireGranted, Idle)
  const HOLDING := Two(C.Locked, C.Empty, [0], Held(false), Idle)

  lemma FirstGets()
    ensures Goes(IDLE, Enter(0), ASKING) && Goes(GRANTED, TakeAnswer(0), HOLDING)
  {
  }

  lemma FirstGranted()
    ensures Leads(With(S.FreshLock, ASKING, AWAY), Label(0, ServeAcquire(0)), With(HELD_BY_0, GRANTED, AWAY))
  {
  }

  lemma ReachHolding() returns (ls: seq<Label>)
    ensures Reached(ls, With(HELD_BY_0, HOLDING, AWAY))
  {
    FirstGets();
    ls := Take([], S.FreshLock, IDLE, AWAY, Enter(0), ASKING);
    FirstGranted();
    ls := Extend(ls, With(S.FreshLock, ASKING, AWAY), Label(0, ServeAcquire(0)), With(HELD_BY_0, GRANTED, AWAY));
    ls := Take(ls, HELD_BY_0, GRANTED, AWAY, TakeAnswer(0), HOLDING);
  }

  /** Thread 0 has the lock and thread 1 waits behind it. */
  const QUEUED := Two(C.Locked, C.Empty, [0, 1], Held(false), ForTurn(false))

  lemma SecondQueues()
    ensures Goes(HOLDING, Enter(1), QUEUED)
  {
    assert [0] + [1] == [0, 1];
  }

  lemma BothHold()
    ensures var s := GoOnUnasked(With(HELD_BY_0, QUEUED, AWAY), 0, 1); HoldsLock(s, 0, 0) && HoldsLock(s, 0, 1)
  {
    GoOnIs(With(HELD_BY_0, QUEUED, AWAY), 0, 1);
  }

  /** The first thread gets the lock from the server, the second queues up behind
      it, wakes unasked, and has the lock as well. */
  lemma TwoHolders() returns (ls: seq<Label>)
    ensures Initial(START) && Reached(ls, With(HELD_BY_0, QUEUED, AWAY))
    ensures var s := GoOnUnasked(With(HELD_BY_0, QUEUED, AWAY), 0, 1); HoldsLock(s, 0, 0) && HoldsLock(s, 0, 1)
  {
    ls := ReachHolding();
    SecondQueues();
    ls := Take(ls, HELD_BY_0, HOLDING, AWAY, Enter(1), QUEUED);
    BothHold();
  }

  /** Thread 0 has released, thread 1 has been told and not gone on, 0 waits again. */
  const RELEASED := Two(C.Locked, C.Empty, [1], Idle, ForTurn(true))
  const HANDED := Two(C.Locked, C.Empty, [1, 0], ForTurn(false), ForTurn(true))

  lemma FirstHandsOver()
    ensures Goes(QUEUED, BeginRelease(0), RELEASED) && Goes(RELEASED, Enter(0), HANDED)
  {
    assert [0, 1][1..] == [1] && [1] + [0] == [1, 0];
  }

  lemma BothHoldSoon()
    ensures var s := GoOnUnasked(With(HELD_BY_0, HANDED, AWAY), 0, 0);
            && Enabled(s, Label(0, Wake(1)))
            && HoldsLock(Step(s, Label(0, Wake(1))), 0, 0) && HoldsLock(Step(s, Label(0, Wake(1))), 0, 1)
  {
    GoOnIs(With(HELD_BY_0, HANDED, AWAY), 0, 0);
  }

  /** Nobody has the lock at the moment of the wakeup: it was handed to a thread that
      has not gone on yet.  The thread that wakes unasked takes it, and then the other
      one does. */
  lemma TwoHoldersAfterHandOver() returns (ls: seq<Label>)
    ensures Initial(START) && Reached(ls, With(HELD_BY_0, HANDED, AWAY))
    ensures !SomeoneHolds(With(HELD_BY_0, HANDED, AWAY))
    ensures var s := GoOnUnasked(With(HELD_BY_0, HANDED, AWAY), 0, 0);
            && Enabled(s, Label(0, Wake(1)))
            && HoldsLock(Step(s, Label(0, Wake(1))), 0, 0) && HoldsLock(Step(s, Label(0, Wake(1))), 0, 1)
  {
    ls := TwoHolders();
    FirstHandsOver();
    ls := Take(ls, HELD_BY_0, QUEUED, AWAY, BeginRelease(0), RELEASED);
    ls := Take(ls, HELD_BY_0, RELEASED, AWAY, Enter(0), HANDED);
    BothHoldSoon();
    NobodyHolds();
  }

  lemma NobodyHolds()
    ensures !SomeoneHolds(With(HELD_BY_0, HANDED, AWAY))
  {
  }

  // Client 1 wants the lock, so that client 0 gives it back.

  const WANTING := One(C.Acquiring, [0], AcquireSent)
  const LEAVING := Two(C.Locked, C.Revoke, [0], Held(false), Idle)
  const SYNCING := Two(C.Releasing, C.Revoke, [0], SyncStart, Idle)
  const BEHIND := Two(C.Releasing, C.Revoke, [0, 1], SyncStart, ForTurn(false))
  const WRITING := Two(C.Releasing, C.Revoke, [0, 1], SyncWrite, ForTurn(false))
  const SENDING := Two(C.Releasing, C.Revoke, [0, 1], ReleaseSent, ForTurn(false))
  const DONE := Two(C.Releasing, C.Revoke, [0, 1], ReleaseDone, ForTurn(false))
  const GONE := Two(C.Absent, C.Empty, [1], Idle, ForTurn(true))
  const TOLD := Two(C.Absent, C.Empty, [1, 0], ForTurn(false), ForTurn(true))
  const CALLED := REFUSED.(retries := 1)
  const GIVEN_BACK := With(CHOSEN_1, TOLD, CALLED)

  lemma OtherAsks()
    ensures Leads(With(HELD_BY_0, HOLDING, AWAY), Label(1, Enter(0)), With(HELD_BY_0, HOLDING, WANTING))
  {
  }

  lemma OtherRefused()
    ensures Leads(With(HELD_BY_0, HOLDING, WANTING), Label(1, ServeAcquire(0)),
                  With(REVOKED_FROM_0, HOLDING.(revokes := 1), REFUSED))
  {
    assert {} + {1} == {1};
  }

  lemma FirstGivesUp()
    ensures Goes(HOLDING.(revokes := 1), TakeRevoke, LEAVING) && Goes(LEAVING, BeginRelease(0), SYNCING)
  {
  }

  lemma SecondComes()
    ensures Goes(SYNCING, Enter(1), BEHIND) && Goes(BEHIND, Invalidate(Thread(0)), WRITING)
  {
    assert [0] + [1] == [0, 1];
  }

  lemma FirstWritesBack()
    ensures Leads(With(REVOKED_FROM_0, WRITING, REFUSED), Label(0, WriteBack(Thread(0))),
                  With(REVOKED_FROM_0, SENDING, REFUSED))
  {
  }

  lemma ServerTakesBack()
    ensures Leads(With(REVOKED_FROM_0, SENDING, REFUSED), Label(0, ServeRelease(Thread(0))),
                  With(CHOSEN_1, DONE, CALLED))
  {
    assert S.Least({1}) == 1 && {1} - {1} == {};
  }

  lemma FirstIsThrough()
    ensures Goes(DONE, EndRelease(Thread(0)), GONE) && Goes(GONE, Enter(0), TOLD)
  {
    assert [0, 1][1..] == [1] && [1] + [0] == [1, 0];
  }

  lemma ReachSending() returns (ls: seq<Label>)
    ensures Reached(ls, With(REVOKED_FROM_0, SENDING, REFUSED))
  {
    ls := ReachHolding();
    OtherAsks();
    ls := Extend(ls, With(HELD_BY_0, HOLDING, AWAY), Label(1, Enter(0)), With(HELD_BY_0, HOLDING, WANTING));
    OtherRefused();
    ls := Extend(ls, With(HELD_BY_0, HOLDING, WANTING), Label(1, ServeAcquire(0)),
                 With(REVOKED_FROM_0, HOLDING.(revokes := 1), REFUSED));
    FirstGivesUp();
    ls := Take(ls, REVOKED_FROM_0, HOLDING.(revokes := 1), REFUSED, TakeRevoke, LEAVING);
    ls := Take(ls, REVOKED_FROM_0, LEAVING, REFUSED, BeginRelease(0), SYNCING);
    SecondComes();
    ls := Take(ls, REVOKED_FROM_0, SYNCING, REFUSED, Enter(1), BEHIND);
    ls := Take(ls, REVOKED_FROM_0, BEHIND, REFUSED, Invalidate(Thread(0)), WRITING);
    FirstWritesBack();
    ls := Extend(ls, With(REVOKED_FROM_0, WRITING, REFUSED), Label(0, WriteBack(Thread(0))),
                 With(REVOKED_FROM_0, SENDING, REFUSED));
  }

  lemma ReachTold() returns (ls: seq<Label>)
    ensures Reached(ls, GIVEN_BACK)
  {
    ls := ReachSending();
    ServerTakesBack();
    ls := Extend(ls, With(REVOKED_FROM_0, SENDING, REFUSED), Label(0, ServeRelease(Thread(0))),
                 With(CHOSEN_1, DONE, CALLED));
    FirstIsThrough();
    ls := Take(ls, CHOSEN_1, DONE, CALLED, EndRelease(Thread(0)), GONE);
    ls := Take(ls, CHOSEN_1, GONE, CALLED, Enter(0), TOLD);
  }

  lemma ToldBreaks(last: E.Bytes)
    requires Inv(GIVEN_BACK, last)
    ensures CanLoseExclusion(GoOnUnasked(GIVEN_BACK, 0, 0))
  {
    BreaksExclusionIff(GIVEN_BACK, last, 0, 0);
  }

  /** The lock is not even at the client at the moment of the wakeup: it was given
      back, and the thread at the head of the queue was told so. */
  lemma TwoHoldersAfterGivingBack() returns (ls: seq<Label>)
    ensures Initial(START) && Reached(ls, GIVEN_BACK) && CanLoseExclusion(GoOnUnasked(GIVEN_BACK, 0, 0))
  {
    ls := ReachTold();
    RunKeeps(START, ls);
    ToldBreaks(LastPut(ls, []));
  }
}

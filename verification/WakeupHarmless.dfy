/**
 When an unasked wakeup does no harm to exclusion: the thread leaves through a NOENT
 exit, which is as if it had never woken up, or it asks the server for the lock
 beside the thread at the head of the queue, and one of the two never gets it.
 */
module WakeupHarmless {
  import opened Options
  import C = LockClientCache
  import S = LockServerCache
  import E = ExtentClient
  import opened LockProtocol
  import opened LockInvariant
  import opened LockSteps
  import opened LockTheorems
  import opened UnaskedWakeup

  // A thread that has left through a NOENT exit.

  function NodeWithout(n: Node, t: Tid): Node {
    n.(pc := n.pc[t := Failed])
  }

  function Without(s: State, c: ClientId, t: Tid): State
    requires c in s.nodes
  {
    s.(nodes := s.nodes[c := NodeWithout(s.nodes[c], t)])
  }

  predicate Waiting(n: Node, t: Tid) {
    t in n.pc && n.pc[t].ForTurn?
  }

  lemma SignalWithout(pc: map<Tid, Pc>, t: Tid, target: Option<Tid>)
    requires t in pc && pc[t].ForTurn?
    ensures Signal(pc[t := Failed], target) == Signal(pc, target)[t := Failed]
    ensures t in Signal(pc, target) && Signal(pc, target)[t].ForTurn?
  {
  }

  lemma MoveWithout(pc: map<Tid, Pc>, t: Tid, u: Tid, p: Pc)
    requires t in pc && u != t
    ensures pc[t := Failed][u := p] == pc[u := p][t := Failed]
  {
  }

  /** The client does with a failed thread what it does with one that sleeps on. */
  lemma NodeStepWithout(n: Node, t: Tid, act: Act, e: E.Extent, granted: bool)
    requires Waiting(n, t) && CanAct(NodeWithout(n, t), act)
    ensures CanAct(n, act) && Waiting(LocalStep(n, act, e, granted), t)
    ensures LocalStep(NodeWithout(n, t), act, e, granted) == NodeWithout(LocalStep(n, act, e, granted), t)
  {
    match act {
      case Enter(u) => MoveWithout(n.pc, t, u, AfterRegion(C.EnterAcquire(n.lk, u).next));
      case Wake(u) => MoveWithout(n.pc, t, u, LocalStep(n, act, e, granted).pc[u]);
      case ServeAcquire(u) => MoveWithout(n.pc, t, u, LocalStep(n, act, e, granted).pc[u]);
      case TakeAnswer(u) => MoveWithout(n.pc, t, u, LocalStep(n, act, e, granted).pc[u]);
      case BeginRelease(u) =>
        MoveWithout(n.pc, t, u, SyncStart);
        MoveWithout(n.pc, t, u, Idle);
        SignalWithout(n.pc[u := Idle], t, C.ReleaseLocally(n.lk).signalled);
      case Invalidate(a) => ActorWithout(n, t, a, SyncWrite);
      case WriteBack(a) => ActorWithout(n, t, a, ReleaseSent);
      case ServeRelease(a) => ActorWithout(n, t, a, ReleaseDone);
      case EndRelease(a) =>
        if a.Thread? {
          MoveWithout(n.pc, t, a.t, Idle);
          SignalWithout(n.pc[a.t := Idle], t, C.GivenBack(n.lk).signalled);
        } else {
          SignalWithout(n.pc, t, C.RevokedGivenBack(n.lk).signalled);
        }
      case TakeRevoke =>
      case TakeRetry => SignalWithout(n.pc, t, C.Retried(n.lk).signalled);
      case Get(u, _) => MoveWithout(n.pc, t, u, Held(true));
      case GetAttr(u, _) =>
      case Put(u, _, _) =>
    }
  }

  lemma ActorWithout(n: Node, t: Tid, a: Actor, p: Pc)
    requires Waiting(n, t) && HasActor(NodeWithout(n, t), a) && (a.Thread? ==> a.t != t)
    ensures HasActor(n, a) && ActorPc(NodeWithout(n, t), a) == ActorPc(n, a)
    ensures MoveActor(NodeWithout(n, t), a, p) == NodeWithout(MoveActor(n, a, p), t)
    ensures Waiting(MoveActor(n, a, p), t)
  {
    if a.Thread? {
      MoveWithout(n.pc, t, a.t, p);
    }
  }

  /** A callback makes no difference. */
  lemma NodeAfterWithout(s: State, c: ClientId, t: Tid, l: Label, d: ClientId)
    requires c in s.nodes && Waiting(s.nodes[c], t) && Enabled(Without(s, c, t), l) && d in s.nodes
    ensures Enabled(s, l)
    ensures NodeAfter(Without(s, c, t), l, d) ==
            if d == c then NodeWithout(NodeAfter(s, l, c), t) else NodeAfter(s, l, d)
    ensures d == c ==> Waiting(NodeAfter(s, l, c), t)
  {
    if l.c == c {
      NodeStepWithout(s.nodes[c], t, l.act, s.extent, Granted(s, l));
    }
  }

  lemma IsWithout(s: State, s': State, c: ClientId, t: Tid)
    requires c in s.nodes && s'.nodes.Keys == s.nodes.Keys && s'.server == s.server && s'.extent == s.extent
    requires forall d :: d in s.nodes ==> s'.nodes[d] == if d == c then NodeWithout(s.nodes[c], t) else s.nodes[d]
    ensures s' == Without(s, c, t)
  {
    assert s'.nodes == Without(s, c, t).nodes;
  }

  lemma SameAround(s: State, c: ClientId, t: Tid, l: Label)
    requires c in s.nodes && Enabled(Without(s, c, t), l) && Enabled(s, l)
    ensures ServerAfter(Without(s, c, t), l) == ServerAfter(s, l)
    ensures ExtentAfter(Without(s, c, t), l) == ExtentAfter(s, l)
  {
  }

  lemma StepWithout(s: State, c: ClientId, t: Tid, l: Label)
    requires c in s.nodes && Waiting(s.nodes[c], t) && Enabled(Without(s, c, t), l)
    ensures Enabled(s, l)
    ensures c in Step(s, l).nodes && Waiting(Step(s, l).nodes[c], t)
    ensures Step(Without(s, c, t), l) == Without(Step(s, l), c, t)
  {
    NodeAfterWithout(s, c, t, l, c);
    StepIs(s, l);
    StepIs(Without(s, c, t), l);
    SameAround(s, c, t, l);
    forall d | d in s.nodes
      ensures Step(Without(s, c, t), l).nodes[d] ==
              if d == c then NodeWithout(Step(s, l).nodes[c], t) else Step(s, l).nodes[d]
    {
      NodeAfterWithout(s, c, t, l, d);
    }
    IsWithout(Step(s, l), Step(Without(s, c, t), l), c, t);
  }

  /** Whatever is done beside a failed thread can be done beside one that sleeps on. */
  lemma {:induction false} RunWithout(s: State, c: ClientId, t: Tid, ls: seq<Label>)
    requires c in s.nodes && Waiting(s.nodes[c], t) && Run(Without(s, c, t), ls)
    ensures Run(s, ls) && c in After(s, ls).nodes && Waiting(After(s, ls).nodes[c], t)
    ensures After(Without(s, c, t), ls) == Without(After(s, ls), c, t)
    decreases |ls|
  {
    if ls != [] {
      RunWithout(s, c, t, Most(ls));
      StepWithout(After(s, Most(ls)), c, t, Last(ls));
    }
  }

  lemma FailureIsHarmless(s: State, last: E.Bytes, c: ClientId, t: Tid, ls: seq<Label>)
    requires Inv(s, last) && SleepsBehind(s, c, t) && Run(Without(s, c, t), ls)
    ensures !TwoHold(After(Without(s, c, t), ls))
  {
    RunWithout(s, c, t, ls);
    InvOverRun(s, last, ls);
    AtMostOneHolder(After(s, ls), LastPut(ls, last));
    if TwoHold(Without(After(s, ls), c, t)) {
      TwoHoldWithout(After(s, ls), c, t);
    }
  }

  lemma TwoHoldWithout(s: State, c: ClientId, t: Tid)
    requires c in s.nodes && TwoHold(Without(s, c, t))
    ensures TwoHold(s)
  {
    assert forall d, u :: HoldsLock(Without(s, c, t), d, u) ==> HoldsLock(s, d, u);
  }
}

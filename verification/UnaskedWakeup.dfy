/**
 A wakeup that nobody signalled, which `pthread_cond_wait` of IEEE Std 1003.1
 permits, at the wait behind another local thread (lock_client_cache.cc:137).  That
 wait is not in a loop that tests again.
 */
module UnaskedWakeup {
  import C = LockClientCache
  import opened LockProtocol

  predicate SleepsBehind(s: State, c: ClientId, t: Tid) {
    c in s.nodes && t in s.nodes[c].pc && s.nodes[c].pc[t] == ForTurn(false)
  }

  /** The state after the thread has woken unasked and gone on. */
  function GoOnUnasked(s: State, c: ClientId, t: Tid): State
    requires SleepsBehind(s, c, t)
  {
    var n := s.nodes[c];
    var woken := s.(nodes := s.nodes[c := n.(pc := n.pc[t := ForTurn(true)])]);
    Step(woken, Label(c, Wake(t)))
  }

  ghost predicate TwoHold(s: State) {
    exists c, t, d, u :: HoldsLock(s, c, t) && HoldsLock(s, d, u) && (c != d || t != u)
  }

  /** Some run of ordinary steps from here leads to two holders. */
  ghost predicate CanLoseExclusion(s: State) {
    exists ls :: Run(s, ls) && TwoHold(After(s, ls))
  }

  /** The client has the lock, or the thread at the head of its queue has been told
      that the lock was given back and has not gone on yet. */
  predicate AtRisk(n: Node) {
    || n.lk.state == C.Locked
    || (n.lk.state == C.Absent && n.lk.queue != [] && n.lk.queue[0] in n.pc && n.pc[n.lk.queue[0]] == ForTurn(true))
  }

  /** What the thread finds decides what it does. */
  lemma GoOnIs(s: State, c: ClientId, t: Tid)
    requires SleepsBehind(s, c, t)
    ensures var n := s.nodes[c];
            var r := C.WokenForTurn(n.lk);
            GoOnUnasked(s, c, t) == s.(nodes := s.nodes[c := n.(lk := r.lk, pc := n.pc[t := AfterRegion(r.next)])])
  {
    var n := s.nodes[c];
    assert n.pc[t := ForTurn(true)][t := AfterRegion(C.WokenForTurn(n.lk).next)]
        == n.pc[t := AfterRegion(C.WokenForTurn(n.lk).next)];
    assert s.nodes[c := n.(pc := n.pc[t := ForTurn(true)])][c := n] == s.nodes[c := n];
  }

  /** One step more at the end of a run. */
  lemma RunOn(s: State, ls: seq<Label>, l: Label)
    requires Run(s, ls) && Enabled(After(s, ls), l)
    ensures Run(s, ls + [l]) && After(s, ls + [l]) == Step(After(s, ls), l)
  {
    assert Most(ls + [l]) == ls && Last(ls + [l]) == l;
  }
}

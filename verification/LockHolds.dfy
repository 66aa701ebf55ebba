/**
 What a thread does between acquire and release is atomic: nobody else uses the
 extent meanwhile, so that a put replaces exactly what the thread has read.
 */
module LockHolds {
  import opened Options
  import E = ExtentClient
  import opened LockProtocol
  import opened LockInvariant
  import opened LockSteps
  import opened LockTheorems
  import opened LockRefinement

  /** Steps that only a thread with the lock takes. */
  predicate NeedsLock(act: Act) {
    UsesFile(act) || act.BeginRelease?
  }

  /** Between the two positions the thread does not release. */
  predicate NoRelease(ls: seq<Label>, c: ClientId, t: Tid, from: nat, to: nat)
    requires from <= to <= |ls|
  {
    forall i :: from <= i < to ==> ls[i] != Label(c, BeginRelease(t))
  }

  /** Its own steps other than release leave a holder holding. */
  lemma HolderStays(s: State, l: Label, c: ClientId, t: Tid)
    requires Enabled(s, l) && HoldsLock(s, c, t) && l != Label(c, BeginRelease(t))
    ensures HoldsLock(Step(s, l), c, t)
  {
    OthersStandStill(s, l, c, t);
  }

  lemma {:induction false} HoldLasts(s: State, ls: seq<Label>, c: ClientId, t: Tid, k: nat, j: nat)
    requires Run(s, ls) && k <= j <= |ls| && NoRelease(ls, c, t, k, j)
    requires Run(s, ls[..k]) && HoldsLock(After(s, ls[..k]), c, t)
    ensures Run(s, ls[..j]) && HoldsLock(After(s, ls[..j]), c, t)
    decreases j
  {
    if j > k {
      HoldLasts(s, ls, c, t, k, j - 1);
      PrefixRuns(s, ls, j - 1);
      HolderStays(After(s, ls[..j - 1]), ls[j - 1], c, t);
      assert Most(ls[..j]) == ls[..j - 1] && Last(ls[..j]) == ls[j - 1];
    }
  }

  lemma UserHolds(s: State, l: Label)
    requires Enabled(s, l) && NeedsLock(l.act)
    ensures HoldsLock(s, l.c, l.act.t)
  {
  }

  /** From a step that a thread takes with the lock until it releases, every step that
      needs the lock is its own. */
  lemma HoldIsAtomic(s: State, ls: seq<Label>, c: ClientId, t: Tid, k: nat, j: nat)
    requires Initial(s) && Run(s, ls) && k <= j < |ls| && NoRelease(ls, c, t, k, j)
    requires ls[k].c == c && UsesFile(ls[k].act) && ls[k].act.t == t
    requires NeedsLock(ls[j].act)
    ensures ls[j].c == c && ls[j].act.t == t
  {
    PrefixRuns(s, ls, k);
    UserHolds(After(s, ls[..k]), ls[k]);
    HoldLasts(s, ls, c, t, k, j);
    PrefixRuns(s, ls, j);
    UserHolds(After(s, ls[..j]), ls[j]);
    MutualExclusion(s, ls[..j]);
  }

  lemma {:induction false} NoPutBetween(ls: seq<Label>, first: E.Bytes, k: nat, m: nat)
    requires k <= m <= |ls| && forall j :: k <= j < m ==> !ls[j].act.Put?
    ensures LastPut(ls[..m], first) == LastPut(ls[..k], first)
    decreases m
  {
    if m > k {
      assert Most(ls[..m]) == ls[..m - 1] && Last(ls[..m]) == ls[m - 1];
      NoPutBetween(ls, first, k, m - 1);
    }
  }

  /** No update is lost: when a thread gets the extent and later, without releasing in
      between, puts it for the first time, the last put before that, of any client, is
      what the get returned. */
  lemma NoLostUpdate(s: State, ls: seq<Label>, c: ClientId, t: Tid, k: nat, m: nat)
    requires Initial(s) && Run(s, ls) && k < m < |ls| && NoRelease(ls, c, t, k, m)
    requires ls[k].c == c && ls[k].act.Get? && ls[k].act.t == t
    requires ls[m].act.Put?
    requires forall j :: k <= j < m ==> !(ls[j].c == c && ls[j].act.Put? && ls[j].act.t == t)
    ensures ls[m].c == c && ls[m].act.t == t
    ensures Run(s, ls[..k]) && Enabled(After(s, ls[..k]), ls[k])
    ensures BytesRead(After(s, ls[..k]), ls[k]) == LastPut(ls[..m], s.extent.bytes)
  {
    HoldIsAtomic(s, ls, c, t, k, m);
    forall j | k <= j < m
      ensures !ls[j].act.Put?
    {
      if ls[j].act.Put? {
        HoldIsAtomic(s, ls, c, t, k, j);
      }
    }
    NoPutBetween(ls, s.extent.bytes, k, m);
    Coherence(s, ls, k);
  }
}

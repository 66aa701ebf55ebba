/**
 The caching protocol against the simple lock server: seen from the threads, every
 run is a run of one flag.  And within a client the lock goes round in queue order.
 */
module LockRefinement {
  import opened Options
  import C = LockClientCache
  import S = LockServerCache
  import E = ExtentClient
  import L = LockServer
  import opened LockProtocol
  import opened LockInvariant
  import opened LockSteps
  import opened LockTheorems

  /** An acquire that returned, or a call of release, of one thread. */
  datatype Event = Got(c: ClientId, t: Tid) | LetGo(c: ClientId, t: Tid)

  predicate MayGet(act: Act) {
    act.Enter? || act.Wake? || act.TakeAnswer?
  }

  function EventOf(s: State, l: Label): seq<Event>
    requires Enabled(s, l)
  {
    if MayGet(l.act) && HoldsLock(Step(s, l), l.c, l.act.t) then [Got(l.c, l.act.t)]
    else if l.act.BeginRelease? then [LetGo(l.c, l.act.t)]
    else []
  }

  ghost function Events(s: State, ls: seq<Label>): seq<Event>
    requires Run(s, ls)
    decreases |ls|
  {
    if ls == [] then [] else Events(s, Most(ls)) + EventOf(After(s, Most(ls)), Last(ls))
  }

  /** The simple server fed with the events: `None` once it had to make a caller
      wait that did get the lock, or was asked to unlock a free lock. */
  function Simple(lid: L.LockId, evs: seq<Event>): Option<L.Flags> {
    if evs == [] then Some(map[])
    else
      match Simple(lid, evs[..|evs| - 1])
      case None => None
      case Some(flags) =>
        match evs[|evs| - 1]
        case Got(_, _) => if L.IsLocked(flags, lid) then None else Some(L.Lock(flags, lid))
        case LetGo(_, _) => if L.IsLocked(flags, lid) then Some(L.Unlock(flags, lid)) else None
  }

  ghost predicate SomeoneHolds(s: State) {
    exists c, t :: HoldsLock(s, c, t)
  }

  /** A step changes the standing of no thread but its own. */
  lemma OthersStandStill(s: State, l: Label, d: ClientId, u: Tid)
    requires Enabled(s, l)
    requires !(l.c == d && (MayGet(l.act) || l.act.BeginRelease?) && l.act.t == u)
    ensures HoldsLock(Step(s, l), d, u) <==> HoldsLock(s, d, u)
  {
    if d == l.c {
      OwnThreadsStandStill(s.nodes[d], l.act, s.extent, u);
    }
  }

  lemma OwnThreadsStandStill(n: Node, act: Act, e: E.Extent, u: Tid)
    requires CanAct(n, act)
    requires !((MayGet(act) || act.BeginRelease?) && act.t == u)
    ensures forall granted :: var n' := LocalStep(n, act, e, granted);
              (u in n'.pc && n'.pc[u].Held?) <==> (u in n.pc && n.pc[u].Held?)
  {
  }

  lemma GotFromNobody(s: State, l: Label, last: E.Bytes)
    requires Inv(s, last) && Enabled(s, l) && MayGet(l.act) && HoldsLock(Step(s, l), l.c, l.act.t)
    ensures !SomeoneHolds(s)
  {
    StepKeeps(s, l, last);
    if c, t :| HoldsLock(s, c, t) {
      AtMostOneHolder(Step(s, l), last);
      if !(c == l.c && t == l.act.t) {
        OthersStandStill(s, l, c, t);
      }
    }
  }

  lemma LetGoByHolder(s: State, l: Label, last: E.Bytes)
    requires Inv(s, last) && Enabled(s, l) && l.act.BeginRelease?
    ensures SomeoneHolds(s) && !SomeoneHolds(Step(s, l))
  {
    assert HoldsLock(s, l.c, l.act.t);
    AtMostOneHolder(s, last);
    if c, t :| HoldsLock(Step(s, l), c, t) {
      ReleaserLetsGo(s.nodes[l.c], l.act.t, s.extent);
      if !(c == l.c && t == l.act.t) {
        OthersStandStill(s, l, c, t);
      }
    }
  }

  lemma ReleaserLetsGo(n: Node, t: Tid, e: E.Extent)
    requires CanAct(n, BeginRelease(t))
    ensures var n' := LocalStep(n, BeginRelease(t), e, false); t in n'.pc && !n'.pc[t].Held?
  {
  }

  lemma NoEventNoChange(s: State, l: Label)
    requires Enabled(s, l) && EventOf(s, l) == []
    ensures SomeoneHolds(Step(s, l)) <==> SomeoneHolds(s)
  {
    forall c, t
      ensures HoldsLock(Step(s, l), c, t) <==> HoldsLock(s, c, t)
    {
      if !(c == l.c && MayGet(l.act) && t == l.act.t) {
        OthersStandStill(s, l, c, t);
      }
    }
  }

  /** The flag after one more event. */
  lemma SimpleOnce(lid: L.LockId, evs: seq<Event>, ev: seq<Event>)
    requires |ev| <= 1 && Simple(lid, evs).Some?
    requires ev != [] ==> (ev[0].Got? <==> !L.IsLocked(Simple(lid, evs).value, lid))
    ensures Simple(lid, evs + ev).Some?
    ensures L.IsLocked(Simple(lid, evs + ev).value, lid)
            <==> if ev == [] then L.IsLocked(Simple(lid, evs).value, lid) else ev[0].Got?
  {
    if ev == [] {
      assert evs + ev == evs;
    } else {
      assert (evs + ev)[..|evs + ev| - 1] == evs;
    }
  }

  /** One step against the flag. */
  lemma StepAgainstFlag(s: State, l: Label, last: E.Bytes)
    requires Inv(s, last) && Enabled(s, l)
    ensures var ev := EventOf(s, l);
            && |ev| <= 1
            && (ev == [] ==> (SomeoneHolds(Step(s, l)) <==> SomeoneHolds(s)))
            && (ev != [] ==> (ev[0].Got? <==> !SomeoneHolds(s)) && (ev[0].Got? <==> SomeoneHolds(Step(s, l))))
  {
    if EventOf(s, l) == [] {
      NoEventNoChange(s, l);
    } else if l.act.BeginRelease? {
      LetGoByHolder(s, l, last);
    } else {
      GotFromNobody(s, l, last);
      assert HoldsLock(Step(s, l), l.c, l.act.t);
    }
  }

  /** Every run of the caching protocol projects to a legal run of the simple lock
      server, whose flag is set exactly while some thread has the lock. */
  lemma {:induction false} RefinesSimpleLock(lid: L.LockId, s: State, ls: seq<Label>)
    requires Initial(s) && Run(s, ls)
    ensures Simple(lid, Events(s, ls)).Some?
    ensures L.IsLocked(Simple(lid, Events(s, ls)).value, lid) <==> SomeoneHolds(After(s, ls))
    decreases |ls|
  {
    if ls != [] {
      RefinesSimpleLock(lid, s, Most(ls));
      RunKeeps(s, Most(ls));
      StepAgainstFlag(After(s, Most(ls)), Last(ls), LastPut(Most(ls), s.extent.bytes));
      SimpleOnce(lid, Events(s, Most(ls)), EventOf(After(s, Most(ls)), Last(ls)));
    }
  }

  // Queue order.

  /** The threads of one client in the order of their calls of acquire. */
  function Entered(ls: seq<Label>, c: ClientId): seq<Tid>
    decreases |ls|
  {
    if ls == [] then []
    else Entered(Most(ls), c) + EntersAt(Last(ls), c)
  }

  /** The threads of one client in the order in which they got the lock. */
  function GotBy(evs: seq<Event>, c: ClientId): seq<Tid> {
    if evs == [] then []
    else
      var e := evs[|evs| - 1];
      GotBy(evs[..|evs| - 1], c) + if e.Got? && e.c == c then [e.t] else []
  }

  /** How many threads at the head of the queue have had the lock: none or one. */
  function Served(n: Node): nat {
    if n.lk.queue != [] && n.lk.queue[0] in n.pc
       && (n.pc[n.lk.queue[0]].Held? || n.pc[n.lk.queue[0]] in {SyncStart, SyncWrite, ReleaseSent, ReleaseDone})
    then 1 else 0
  }

  /** The queue is the tail of those who entered; all before it, and the thread at
      its head if it was served, are those who got the lock. */
  predicate InOrder(entered: seq<Tid>, got: seq<Tid>, queue: seq<Tid>, served: nat) {
    var left := |entered| - |queue|;
    && 0 <= left && served <= |queue|
    && entered[left..] == queue
    && got == entered[..left + served]
  }

  lemma OrderOnEntry(entered: seq<Tid>, got: seq<Tid>, queue: seq<Tid>, served: nat, t: Tid, now: bool)
    requires InOrder(entered, got, queue, served) && (now ==> queue == [])
    ensures if now then InOrder(entered + [t], got + [t], queue + [t], 1)
            else InOrder(entered + [t], got, queue + [t], served)
  {
    var left := |entered| - |queue|;
    assert (entered + [t])[left..] == queue + [t];
    assert (entered + [t])[..left + served] == entered[..left + served];
  }

  lemma OrderOnService(entered: seq<Tid>, got: seq<Tid>, queue: seq<Tid>)
    requires InOrder(entered, got, queue, 0) && queue != []
    ensures InOrder(entered, got + [queue[0]], queue, 1)
  {
    assert entered[|entered| - |queue|] == entered[|entered| - |queue|..][0];
  }

  lemma OrderOnLeaving(entered: seq<Tid>, got: seq<Tid>, queue: seq<Tid>)
    requires InOrder(entered, got, queue, 1) && queue != []
    ensures InOrder(entered, got, queue[1..], 0)
  {
    var left := |entered| - |queue|;
    assert entered[left + 1..] == entered[left..][1..];
  }

  function GetsIn(n': Node, act: Act): seq<Tid> {
    if MayGet(act) && act.t in n'.pc && n'.pc[act.t].Held? then [act.t] else []
  }

  /** What one step can do to the queue: nothing, a thread enters at the back (and
      may get the lock at once), the first gets the lock, or the first leaves. */
  predicate Moves(q: seq<Tid>, served: nat, q': seq<Tid>, served': nat, enters: seq<Tid>, gets: seq<Tid>) {
    if enters != [] then
      && |enters| == 1 && q' == q + enters
      && if gets == [] then served' == served else q == [] && gets == enters && served' == 1
    else if gets != [] then q' == q != [] && gets == [q[0]] && served == 0 && served' == 1
    else (q' == q && served' == served) || (q != [] && q' == q[1..] && served == 1 && served' == 0)
  }

  lemma OrderOfMove(q: seq<Tid>, served: nat, q': seq<Tid>, served': nat, enters: seq<Tid>, gets: seq<Tid>,
                    entered: seq<Tid>, got: seq<Tid>)
    requires Moves(q, served, q', served', enters, gets) && InOrder(entered, got, q, served)
    ensures InOrder(entered + enters, got + gets, q', served')
  {
    assert entered + [] == entered && got + [] == got;
    if enters != [] {
      OrderOnEntry(entered, got, q, served, enters[0], gets != []);
    } else if gets != [] {
      OrderOnService(entered, got, q);
    } else if q' != q {
      OrderOnLeaving(entered, got, q);
    }
  }

  function EntersBy(act: Act): seq<Tid> {
    if act.Enter? then [act.t] else []
  }

  predicate NodeMoves(n: Node, n': Node, act: Act) {
    Moves(n.lk.queue, Served(n), n'.lk.queue, Served(n'), EntersBy(act), GetsIn(n', act))
  }

  lemma EntryMoves(r: Role, n: Node, t: Tid)
    requires NodeInv(r, n) && CanAct(n, Enter(t))
    ensures NodeMoves(n, RunRegion(n, t, C.EnterAcquire(n.lk, t)), Enter(t))
  {
    IdleIsOutside(r, n, t);
    if n.lk.queue != [] {
      assert (n.lk.queue + [t])[0] == n.lk.queue[0];
    }
  }

  lemma ServiceMoves(r: Role, n: Node, act: Act, e: E.Extent)
    requires NodeInv(r, n) && CanAct(n, act) && (act.Wake? || act.TakeAnswer?)
    ensures NodeMoves(n, LocalStep(n, act, e, false), act)
  {
    WokenIsFront(r, n, act.t);
  }

  lemma LeavingMoves(r: Role, n: Node, n': Node, act: Act, t: Tid)
    requires NodeInv(r, n) && t in n.pc && (n.pc[t].Held? || n.pc[t] == ReleaseDone)
    requires n'.lk.queue == C.Behind(n.lk.queue) && n'.pc == Signal(n.pc[t := Idle], C.Front(n'.lk.queue))
    requires act.BeginRelease? || act.EndRelease?
    ensures NodeMoves(n, n', act)
  {
    WokenIsFront(r, n, t);
    QueueShrinks(n, n', t);
  }

  lemma ActorMoves(r: Role, n: Node, n': Node, act: Act, a: Actor, p: Pc)
    requires NodeInv(r, n) && HasActor(n, a) && !act.Enter? && !MayGet(act)
    requires ActorPc(n, a) in {SyncStart, SyncWrite, ReleaseSent} && p in {SyncWrite, ReleaseSent, ReleaseDone}
    requires n' == MoveActor(n, a, p).(file := n'.file)
    ensures NodeMoves(n, n', act)
  {
    if a.Thread? {
      WokenIsFront(r, n, a.t);
    }
  }

  /** A step of the front thread that neither enters, gets the lock nor leaves. */
  lemma StayingMoves(r: Role, n: Node, n': Node, act: Act, t: Tid)
    requires NodeInv(r, n) && t in n.pc && !MayGet(act)
    requires n'.lk.queue == n.lk.queue && t in n'.pc && n'.pc == n.pc[t := n'.pc[t]]
    requires if n.pc[t].Held? then n'.pc[t].Held? || n'.pc[t] == SyncStart
             else n.pc[t] == AcquireSent && n'.pc[t] in {AcquireGranted, AcquireRefused}
    ensures NodeMoves(n, n', act)
  {
    WokenIsFront(r, n, t);
  }

  lemma CallbackMoves(n: Node, act: Act, e: E.Extent)
    requires CanAct(n, act) && (act.TakeRevoke? || act.TakeRetry?)
    ensures NodeMoves(n, LocalStep(n, act, e, false), act)
  {
  }

  lemma HandlerEndMoves(r: Role, n: Node, a: Actor)
    requires NodeInv(r, n) && CanAct(n, EndRelease(a)) && a.Handler?
    ensures NodeMoves(n, EndActor(n, a), EndRelease(a))
  {
  }

  lemma GivingBackMoves(r: Role, n: Node, act: Act, e: E.Extent)
    requires NodeInv(r, n) && CanAct(n, act)
    requires act.Invalidate? || act.WriteBack? || act.ServeRelease? || act.EndRelease?
    ensures NodeMoves(n, LocalStep(n, act, e, false), act)
  {
    var n' := LocalStep(n, act, e, false);
    match act {
      case Invalidate(a) => ActorMoves(r, n, n', act, a, SyncWrite);
      case WriteBack(a) => ActorMoves(r, n, n', act, a, ReleaseSent);
      case ServeRelease(a) => ActorMoves(r, n, n', act, a, ReleaseDone);
      case EndRelease(a) =>
        if a.Thread? {
          LeavingMoves(r, n, n', act, a.t);
        } else {
          HandlerEndMoves(r, n, a);
        }
    }
  }

  lemma StepMoves(r: Role, n: Node, act: Act, e: E.Extent, granted: bool)
    requires NodeInv(r, n) && CanAct(n, act) && (granted ==> act.ServeAcquire?)
    ensures NodeMoves(n, LocalStep(n, act, e, granted), act)
  {
    var n' := LocalStep(n, act, e, granted);
    match act {
      case Enter(t) => EntryMoves(r, n, t);
      case Wake(_) => ServiceMoves(r, n, act, e);
      case TakeAnswer(_) => ServiceMoves(r, n, act, e);
      case ServeAcquire(t) => StayingMoves(r, n, n', act, t);
      case BeginRelease(t) =>
        if C.MustGiveBack(n.lk) {
          StayingMoves(r, n, n', act, t);
        } else {
          LeavingMoves(r, n, n', act, t);
        }
      case Invalidate(_) => GivingBackMoves(r, n, act, e);
      case WriteBack(_) => GivingBackMoves(r, n, act, e);
      case ServeRelease(_) => GivingBackMoves(r, n, act, e);
      case EndRelease(_) => GivingBackMoves(r, n, act, e);
      case TakeRevoke => CallbackMoves(n, act, e);
      case TakeRetry => CallbackMoves(n, act, e);
      case Get(t, _) => StayingMoves(r, n, n', act, t);
      case GetAttr(t, _) => StayingMoves(r, n, n', act, t);
      case Put(t, _, _) => StayingMoves(r, n, n', act, t);
    }
  }

  lemma GotBySplits(evs: seq<Event>, ev: seq<Event>, c: ClientId)
    requires |ev| <= 1
    ensures GotBy(evs + ev, c) == GotBy(evs, c) + GotBy(ev, c)
  {
    if ev == [] {
      assert evs + ev == evs;
    } else {
      assert (evs + ev)[..|evs + ev| - 1] == evs && ev[..0] == [];
    }
  }

  predicate NodeInOrder(entered: seq<Tid>, got: seq<Tid>, n: Node) {
    InOrder(entered, got, n.lk.queue, Served(n))
  }

  function EntersAt(l: Label, c: ClientId): seq<Tid> {
    if l.c == c then EntersBy(l.act) else []
  }

  lemma EventsOfStep(s: State, l: Label, c: ClientId)
    requires Enabled(s, l) && c in s.nodes && c in Step(s, l).nodes
    ensures l.c != c ==> GotBy(EventOf(s, l), c) == []
    ensures l.c == c ==> GotBy(EventOf(s, l), c) == GetsIn(Step(s, l).nodes[c], l.act)
  {
    assert forall e :: GotBy([e], c) == if e.Got? && e.c == c then [e.t] else [];
  }

  lemma StepInOrder(s: State, last: E.Bytes, l: Label, c: ClientId, entered: seq<Tid>, got: seq<Tid>)
    requires Enabled(s, l) && c in s.nodes && NodeOk(s, last, c) && NodeInOrder(entered, got, s.nodes[c])
    ensures c in Step(s, l).nodes
    ensures NodeInOrder(entered + EntersAt(l, c), got + GotBy(EventOf(s, l), c), Step(s, l).nodes[c])
  {
    StepAt(s, l, c);
    EventsOfStep(s, l, c);
    var n, n' := s.nodes[c], Step(s, l).nodes[c];
    if l.c == c {
      StepMoves(RoleOf(s.server, c), n, l.act, s.extent, Granted(s, l));
    }
    OrderOfMove(n.lk.queue, Served(n), n'.lk.queue, Served(n'), EntersAt(l, c), GotBy(EventOf(s, l), c), entered, got);
  }

  lemma {:induction false} RunInOrder(s: State, ls: seq<Label>, c: ClientId)
    requires Initial(s) && Run(s, ls) && c in After(s, ls).nodes
    ensures NodeInOrder(Entered(ls, c), GotBy(Events(s, ls), c), After(s, ls).nodes[c])
    decreases |ls|
  {
    if ls != [] {
      var before, l, last := After(s, Most(ls)), Last(ls), LastPut(Most(ls), s.extent.bytes);
      RunKeeps(s, Most(ls));
      assert NodeOk(before, last, c);
      RunInOrder(s, Most(ls), c);
      GotBySplits(Events(s, Most(ls)), EventOf(before, l), c);
      StepInOrder(before, last, l, c, Entered(Most(ls), c), GotBy(Events(s, Most(ls)), c));
    }
  }

  /** The threads of a client get the lock in the order in which they asked for it. */
  lemma LocalOrder(s: State, ls: seq<Label>, c: ClientId)
    requires Initial(s) && Run(s, ls) && c in After(s, ls).nodes
    ensures GotBy(Events(s, ls), c) <= Entered(ls, c)
  {
    RunInOrder(s, ls, c);
  }
}

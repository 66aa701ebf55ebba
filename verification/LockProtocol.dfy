/**
 The caching lock protocol for one lock id and the extent of that id, with any
 number of clients and threads.  A step is one stretch of code under a mutex, one
 call on the extent server, or one half of `sync`.  An RPC under way is part of
 the program counter of its caller; callbacks under way are counted per client.
 Replies and callbacks arrive in any order.
 */
module LockProtocol {
  import opened Options
  import C = LockClientCache
  import S = LockServerCache
  import E = ExtentClient

  type ClientId = S.ClientId
  type Tid = C.Tid

  datatype Pc =
    | Idle
    | ForRelease(woken: bool)  // asleep until a release under way has finished
    | ForTurn(woken: bool)     // asleep behind another local thread
    | AcquireSent              // acquire RPC not yet handled by the server
    | AcquireGranted           // OK under way
    | AcquireRefused           // RETRY under way
    | ForRetry(woken: bool)    // asleep until the server says retry
    | Held(read: bool)         // between acquire and release; `read`: has called get
    | SyncStart                // giving the lock back: sync not yet begun
    | SyncWrite                // entry invalidated, write-back not yet done
    | ReleaseSent              // release RPC not yet handled by the server
    | ReleaseDone              // its answer under way
    | Failed                   // left through a NOENT exit

  /** One client.  `handlers` are its revoke handlers that are giving the lock
      back; `revokes` and `retries` count the callbacks under way to it. */
  datatype Node = Node(
    lk: C.ClientLock,
    pc: map<Tid, Pc>,
    handlers: seq<Pc>,
    revokes: nat,
    retries: nat,
    file: Option<E.CachedFile>)

  datatype State = State(server: S.ServerLock, nodes: map<ClientId, Node>, extent: E.Extent)

  /** Who gives the lock back: a thread in `release` or a revoke handler. */
  datatype Actor = Thread(t: Tid) | Handler(i: nat)

  datatype Act =
    | Enter(t: Tid)
    | Wake(t: Tid)
    | ServeAcquire(t: Tid)
    | TakeAnswer(t: Tid)
    | BeginRelease(t: Tid)
    | Invalidate(a: Actor)
    | WriteBack(a: Actor)
    | ServeRelease(a: Actor)
    | EndRelease(a: Actor)
    | TakeRevoke
    | TakeRetry
    | Get(t: Tid, junk: E.Attr)
    | GetAttr(t: Tid, junk: E.Attr)
    | Put(t: Tid, buf: E.Bytes, junk: E.Attr)

  datatype Label = Label(c: ClientId, act: Act)

  function Asleep(p: Pc): bool {
    p.ForRelease? || p.ForTurn? || p.ForRetry?
  }

  /** A signal wakes its target if that is asleep, and is lost otherwise. */
  function Signal(pc: map<Tid, Pc>, target: Option<Tid>): map<Tid, Pc> {
    if target.None? || target.value !in pc || !Asleep(pc[target.value]) then pc
    else pc[target.value := pc[target.value].(woken := true)]
  }

  function AfterRegion(next: C.Next): Pc {
    match next
    case Return => Held(false)
    case CallAcquire => AcquireSent
    case SleepForRelease => ForRelease(false)
    case SleepForTurn => ForTurn(false)
    case SleepForRetry => ForRetry(false)
    case NoEntry => Failed
  }

  function RunRegion(n: Node, t: Tid, r: C.Region): Node {
    n.(lk := r.lk, pc := n.pc[t := AfterRegion(r.next)])
  }

  predicate HasActor(n: Node, a: Actor) {
    match a
    case Thread(t) => t in n.pc
    case Handler(i) => i < |n.handlers|
  }

  function ActorPc(n: Node, a: Actor): Pc
    requires HasActor(n, a)
  {
    match a
    case Thread(t) => n.pc[t]
    case Handler(i) => n.handlers[i]
  }

  function MoveActor(n: Node, a: Actor, p: Pc): Node
    requires HasActor(n, a)
  {
    match a
    case Thread(t) => n.(pc := n.pc[t := p])
    case Handler(i) => n.(handlers := n.handlers[i := p])
  }

  function EndActor(n: Node, a: Actor): Node
    requires HasActor(n, a)
  {
    match a
    case Thread(t) =>
      var s := C.GivenBack(n.lk);
      n.(lk := s.lk, pc := Signal(n.pc[t := Idle], s.signalled))
    case Handler(i) =>
      var s := C.RevokedGivenBack(n.lk);
      n.(lk := s.lk, pc := Signal(n.pc, s.signalled), handlers := n.handlers[..i] + n.handlers[i + 1..])
  }

  /** When a step can be taken; a thread puts only after a get of its own. */
  predicate CanAct(n: Node, act: Act) {
    match act
    case Enter(t) => t in n.pc && n.pc[t] == Idle
    case Wake(t) => t in n.pc && Asleep(n.pc[t]) && n.pc[t].woken
    case ServeAcquire(t) => t in n.pc && n.pc[t] == AcquireSent
    case TakeAnswer(t) => t in n.pc && (n.pc[t] == AcquireGranted || n.pc[t] == AcquireRefused)
    case BeginRelease(t) => t in n.pc && n.pc[t].Held?
    case Invalidate(a) => HasActor(n, a) && ActorPc(n, a) == SyncStart
    case WriteBack(a) => HasActor(n, a) && ActorPc(n, a) == SyncWrite
    case ServeRelease(a) => HasActor(n, a) && ActorPc(n, a) == ReleaseSent
    case EndRelease(a) => HasActor(n, a) && ActorPc(n, a) == ReleaseDone
    case TakeRevoke => n.revokes > 0
    case TakeRetry => n.retries > 0
    case Get(t, _) => t in n.pc && n.pc[t].Held?
    case GetAttr(t, _) => t in n.pc && n.pc[t].Held?
    case Put(t, _, _) => t in n.pc && n.pc[t] == Held(true)
  }

  predicate Enabled(s: State, l: Label) {
    l.c in s.nodes && CanAct(s.nodes[l.c], l.act)
  }

  /** The client's own part of a step. */
  function LocalStep(n: Node, act: Act, e: E.Extent, granted: bool): Node
    requires CanAct(n, act)
  {
    match act
    case Enter(t) => RunRegion(n, t, C.EnterAcquire(n.lk, t))
    case Wake(t) =>
      RunRegion(n, t, match n.pc[t]
                      case ForRelease(_) => C.WokenAfterRelease(n.lk)
                      case ForTurn(_) => C.WokenForTurn(n.lk)
                      case _ => C.AskAgain(n.lk))
    case ServeAcquire(t) => n.(pc := n.pc[t := if granted then AcquireGranted else AcquireRefused])
    case TakeAnswer(t) => RunRegion(n, t, C.Answered(n.lk, n.pc[t] == AcquireGranted))
    case BeginRelease(t) =>
      if C.MustGiveBack(n.lk) then
        n.(lk := C.StartGivingBack(n.lk), pc := n.pc[t := SyncStart])
      else
        var s := C.ReleaseLocally(n.lk);
        n.(lk := s.lk, pc := Signal(n.pc[t := Idle], s.signalled))
    case Invalidate(a) => MoveActor(n, a, SyncWrite).(file := E.Invalidate(n.file))
    case WriteBack(a) => MoveActor(n, a, ReleaseSent).(file := E.Cleaned(n.file))
    case ServeRelease(a) => MoveActor(n, a, ReleaseDone)
    case EndRelease(a) => EndActor(n, a)
    case TakeRevoke =>
      n.(lk := C.Revoked(n.lk), revokes := n.revokes - 1,
         handlers := if C.FreeToGiveBack(n.lk) then n.handlers + [SyncStart] else n.handlers)
    case TakeRetry =>
      var s := C.Retried(n.lk);
      n.(lk := s.lk, pc := Signal(n.pc, s.signalled), retries := n.retries - 1)
    case Get(t, junk) => n.(file := Some(E.Get(n.file, e, junk)), pc := n.pc[t := Held(true)])
    case GetAttr(t, junk) => n.(file := Some(E.GetAttr(n.file, e, junk)))
    case Put(t, buf, junk) => n.(file := Some(E.Put(n.file, buf, junk)))
  }

  function SendRevoke(nodes: map<ClientId, Node>, to: Option<ClientId>): map<ClientId, Node> {
    if to.None? || to.value !in nodes then nodes
    else nodes[to.value := nodes[to.value].(revokes := nodes[to.value].revokes + 1)]
  }

  function SendRetry(nodes: map<ClientId, Node>, to: Option<ClientId>): map<ClientId, Node> {
    if to.None? || to.value !in nodes then nodes
    else nodes[to.value := nodes[to.value].(retries := nodes[to.value].retries + 1)]
  }

  function Step(s: State, l: Label): State
    requires Enabled(s, l)
  {
    var n := s.nodes[l.c];
    match l.act
    case ServeAcquire(_) =>
      var a := S.Acquire(s.server, l.c);
      State(a.lk, SendRevoke(s.nodes[l.c := LocalStep(n, l.act, s.extent, a.granted)], a.revoke), s.extent)
    case ServeRelease(_) =>
      var r := S.Release(s.server);
      State(r.lk, SendRetry(s.nodes[l.c := LocalStep(n, l.act, s.extent, false)], r.retry), s.extent)
    case WriteBack(_) =>
      State(s.server, s.nodes[l.c := LocalStep(n, l.act, s.extent, false)], E.WriteBack(n.file, s.extent))
    case _ =>
      s.(nodes := s.nodes[l.c := LocalStep(n, l.act, s.extent, false)])
  }

  /** Nobody has used the lock yet. */
  predicate FreshNode(n: Node) {
    && n.lk == C.FreshLock && n.handlers == [] && n.revokes == 0 && n.retries == 0 && n.file == None
    && forall t :: t in n.pc ==> n.pc[t] == Idle
  }

  predicate Initial(s: State) {
    s.server == S.FreshLock && forall c :: c in s.nodes ==> FreshNode(s.nodes[c])
  }

  ghost predicate Run(s: State, ls: seq<Label>)
    decreases |ls|, 0
  {
    ls == [] || (Run(s, Most(ls)) && Enabled(After(s, Most(ls)), Last(ls)))
  }

  /** The state at the end of a run. */
  ghost function After(s: State, ls: seq<Label>): State
    requires Run(s, ls)
    decreases |ls|, 1
  {
    if ls == [] then s else Step(After(s, Most(ls)), Last(ls))
  }

  function Most(ls: seq<Label>): seq<Label>
    requires ls != []
  {
    ls[..|ls| - 1]
  }

  function Last(ls: seq<Label>): Label
    requires ls != []
  {
    ls[|ls| - 1]
  }

  /** What the last put of a run wrote, or what the server held at first. */
  function LastPut(ls: seq<Label>, first: E.Bytes): E.Bytes
    decreases |ls|
  {
    if ls == [] then first
    else if Last(ls).act.Put? then Last(ls).act.buf
    else LastPut(Most(ls), first)
  }

  predicate HoldsLock(s: State, c: ClientId, t: Tid) {
    c in s.nodes && t in s.nodes[c].pc && s.nodes[c].pc[t].Held?
  }
}

/**
 Why a thread has to get an extent before it puts it: a put without a get, then a
 getattr, then a get.
 */
module BlindPut {
  import opened Options
  import E = ExtentClient
  import opened LockProtocol
  import opened LockInvariant
  import opened LockSteps
  import opened LockTheorems
  import opened SpuriousWakeup

  /** The put step without its guard. */
  function PutUnread(s: State, c: ClientId, t: Tid, buf: E.Bytes, junk: E.Attr): State
    requires HoldsLock(s, c, t)
  {
    s.(nodes := s.nodes[c := s.nodes[c].(file := Some(E.Put(s.nodes[c].file, buf, junk)))])
  }

  /** What a get then returns after a getattr in between. */
  function ReadBack(s: State, c: ClientId, t: Tid, buf: E.Bytes, junk: E.Attr): E.Bytes
    requires HoldsLock(s, c, t)
  {
    BytesRead(Step(PutUnread(s, c, t, buf, junk), Label(c, GetAttr(t, junk))), Label(c, Get(t, junk)))
  }

  predicate HasRead(s: State, c: ClientId) {
    c in s.nodes && s.nodes[c].file.Some? && s.nodes[c].file.value.bufValid
  }

  lemma ReadBackIs(s: State, c: ClientId, t: Tid, buf: E.Bytes, junk: E.Attr)
    requires HoldsLock(s, c, t)
    ensures ReadBack(s, c, t, buf, junk) == E.GetAttr(Some(E.Put(s.nodes[c].file, buf, junk)), s.extent, junk).buf
  {
  }

  lemma HolderHasCurrent(s: State, last: E.Bytes, c: ClientId, t: Tid)
    requires Inv(s, last) && HoldsLock(s, c, t)
    ensures Current(s.nodes[c].file, s.extent.kind, last)
    ensures !HasRead(s, c) ==> s.extent.bytes == last
  {
    HolderIsOwner(s, last, c, t);
    assert NodeOk(s, last, c);
  }

  /** In every reachable state: the get returns what was put exactly when the client
      has read the extent since it got the lock from the server, or what was put is
      what was there. */
  lemma BlindPutKeptIff(s: State, ls: seq<Label>, c: ClientId, t: Tid, buf: E.Bytes, junk: E.Attr)
    requires Initial(s) && Run(s, ls) && HoldsLock(After(s, ls), c, t)
    ensures ReadBack(After(s, ls), c, t, buf, junk) == buf
            <==> HasRead(After(s, ls), c) || LastPut(ls, s.extent.bytes) == buf
  {
    RunKeeps(s, ls);
    HolderHasCurrent(After(s, ls), LastPut(ls, s.extent.bytes), c, t);
    ReadBackIs(After(s, ls), c, t, buf, junk);
  }

  /** A run to a state with the lock, where a put of one byte is gone at the next get. */
  lemma BlindPutLost(junk: E.Attr) returns (ls: seq<Label>)
    ensures Initial(START) && Run(START, ls) && HoldsLock(After(START, ls), 0, 0)
    ensures ReadBack(After(START, ls), 0, 0, [7], junk) == []
  {
    ls := ReachHolding();
    ReadBackIs(After(START, ls), 0, 0, [7], junk);
  }
}

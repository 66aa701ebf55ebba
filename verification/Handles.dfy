/**
 The table of reference-counted RPC handles (handle.cc).  `infos` are the `hinfo`
 records that are allocated; one that was deleted is no longer in it, so that a
 pointer to it would dangle.
 */
module Handles {
  import opened Options

  type Ptr = nat
  type HandleId = nat

  datatype Info = Info(name: string, refcnt: int, del: bool, bound: bool)

  datatype Table = Table(infos: map<Ptr, Info>, hmap: map<string, Ptr>)

  /** Names and records stand in for each other. */
  ghost predicate Matched(tb: Table) {
    && (forall m :: m in tb.hmap ==> tb.hmap[m] in tb.infos && tb.infos[tb.hmap[m]].name == m)
    && (forall p :: p in tb.infos ==> tb.infos[p].name in tb.hmap && tb.hmap[tb.infos[p].name] == p)
  }

  /** `get_handle`; `p` is where a new record would be allocated. */
  function GetHandle(tb: Table, m: string, p: Ptr): (Table, Option<Ptr>)
    requires m in tb.hmap ==> tb.hmap[m] in tb.infos
  {
    if m !in tb.hmap then
      (Table(tb.infos[p := Info(m, 1, false, false)], tb.hmap[m := p]), Some(p))
    else
      var q := tb.hmap[m];
      if tb.infos[q].del then (tb, None)
      else (tb.(infos := tb.infos[q := tb.infos[q].(refcnt := tb.infos[q].refcnt + 1)]), Some(q))
  }

  /** `delete_handle_wo`. */
  function DeleteHandle(tb: Table, m: string): Table
    requires m in tb.hmap ==> tb.hmap[m] in tb.infos
  {
    if m !in tb.hmap then tb
    else
      var p := tb.hmap[m];
      if tb.infos[p].refcnt == 0 then Table(tb.infos - {p}, tb.hmap - {m})
      else tb.(infos := tb.infos[p := tb.infos[p].(del := true)])
  }

  /** `done_handle`. */
  function DoneHandle(tb: Table, p: Ptr): Table
    requires p in tb.infos
    requires tb.infos[p].name in tb.hmap ==> tb.hmap[tb.infos[p].name] in tb.infos
  {
    var info := tb.infos[p].(refcnt := tb.infos[p].refcnt - 1);
    var tb' := tb.(infos := tb.infos[p := info]);
    if info.refcnt == 0 && info.del then DeleteHandle(tb', info.name) else tb'
  }

  /** `safebind`: a first bind either binds the record or marks it for deletion.  It
      does not hold the table's mutex, so that the record may have been marked after
      the test for that (`late`). */
  function Safebind(tb: Table, p: Ptr, works: bool, late: bool): Table
    requires p in tb.infos
  {
    var info := tb.infos[p];
    if (info.del && !late) || info.bound then tb
    else tb.(infos := tb.infos[p := if works then info.(bound := true) else info.(del := true)])
  }

  /** Everything but one record and one name is as before. */
  ghost predicate OthersStay(tb: Table, tb': Table, p: Ptr, m: string) {
    && (forall q :: q != p ==> (q in tb'.infos <==> q in tb.infos) && (q in tb.infos ==> tb'.infos[q] == tb.infos[q]))
    && (forall n :: n != m ==> (n in tb'.hmap <==> n in tb.hmap) && (n in tb.hmap ==> tb'.hmap[n] == tb.hmap[n]))
  }

  /** A handle is given exactly when the name is new or its record is not marked for
      deletion; its record has that name, is not marked, and has one reference more. */
  lemma GetAnswers(tb: Table, m: string, p: Ptr)
    requires Matched(tb) && p !in tb.infos
    ensures var r := GetHandle(tb, m, p);
            && (r.1.Some? <==> (m in tb.hmap ==> !tb.infos[tb.hmap[m]].del))
            && (r.1.None? ==> r.0 == tb)
            && (r.1.Some? ==>
                  && r.1.value in r.0.infos && OthersStay(tb, r.0, r.1.value, m)
                  && m in r.0.hmap && r.0.hmap[m] == r.1.value
                  && var info := r.0.infos[r.1.value];
                     && info.name == m && !info.del
                     && info.refcnt == (if m in tb.hmap then tb.infos[r.1.value].refcnt + 1 else 1)
                     && info.bound == (m in tb.hmap && tb.infos[r.1.value].bound))
  {
  }

  /** A deletion frees a record without references, marks one with references, and does
      nothing to a name that is not there. */
  lemma DeleteAnswers(tb: Table, m: string)
    requires Matched(tb)
    ensures var tb' := DeleteHandle(tb, m);
            && (m !in tb.hmap ==> tb' == tb)
            && (m in tb.hmap ==>
                  var p := tb.hmap[m];
                  && OthersStay(tb, tb', p, m)
                  && (p in tb'.infos <==> tb.infos[p].refcnt != 0) && (m in tb'.hmap <==> tb.infos[p].refcnt != 0)
                  && (p in tb'.infos ==> tb'.infos[p] == tb.infos[p].(del := true) && tb'.hmap[m] == p))
  {
  }

  /** When a handle goes away, its record goes exactly if that was the last reference and
      the record was marked; otherwise it has one reference less. */
  lemma DoneAnswers(tb: Table, p: Ptr)
    requires Matched(tb) && p in tb.infos
    ensures var tb', info := DoneHandle(tb, p), tb.infos[p];
            && OthersStay(tb, tb', p, info.name)
            && (p !in tb'.infos <==> info.refcnt == 1 && info.del)
            && (info.name !in tb'.hmap <==> info.refcnt == 1 && info.del)
            && (p in tb'.infos ==> tb'.infos[p] == info.(refcnt := info.refcnt - 1) && tb'.hmap[info.name] == p)
  {
  }

  /** A first bind binds the record exactly when the attempt works and marks it exactly
      when it fails; a record that is bound, or was seen to be marked, stays as it is. */
  lemma BindAnswers(tb: Table, p: Ptr, works: bool, late: bool)
    requires p in tb.infos
    ensures var tb', info := Safebind(tb, p, works, late), tb.infos[p];
            var tries := !info.bound && (late || !info.del);
            && tb'.hmap == tb.hmap && OthersStay(tb, tb', p, info.name) && p in tb'.infos
            && (tb'.infos[p].bound <==> info.bound || (tries && works))
            && (tb'.infos[p].del <==> info.del || (tries && !works))
            && tb'.infos[p].name == info.name && tb'.infos[p].refcnt == info.refcnt
  {
  }

  /** The table together with the live handle objects that hold a record. */
  datatype State = State(tb: Table, held: map<HandleId, Ptr>)

  datatype Act =
    | Get(h: HandleId, m: string, p: Ptr)
    | Done(h: HandleId)
    | Delete(m: string)
    | Bind(h: HandleId, works: bool, late: bool)

  function Users(held: map<HandleId, Ptr>, p: Ptr): set<HandleId> {
    set h | h in held && held[h] == p
  }

  /** A record counts its handles, exists as long as it has any, and is marked for
      deletion only while it has some. */
  ghost predicate Inv(s: State) {
    && Matched(s.tb)
    && (forall h :: h in s.held ==> s.held[h] in s.tb.infos)
    && (forall p :: p in s.tb.infos ==> s.tb.infos[p].refcnt == |Users(s.held, p)|)
    && (forall p :: p in s.tb.infos && s.tb.infos[p].del ==> s.tb.infos[p].refcnt > 0)
  }

  /** New records are allocated where none is; handles are used while they live. */
  predicate Enabled(s: State, a: Act) {
    match a
    case Get(h, _, p) => h !in s.held && p !in s.tb.infos
    case Done(h) => h in s.held
    case Delete(_) => true
    case Bind(h, _, _) => h in s.held
  }

  function Step(s: State, a: Act): State
    requires Enabled(s, a) && (forall m :: m in s.tb.hmap ==> s.tb.hmap[m] in s.tb.infos)
    requires forall h :: h in s.held ==> s.held[h] in s.tb.infos
  {
    match a
    case Get(h, m, p) =>
      var r := GetHandle(s.tb, m, p);
      State(r.0, if r.1.Some? then s.held[h := r.1.value] else s.held)
    case Done(h) => State(DoneHandle(s.tb, s.held[h]), s.held - {h})
    case Delete(m) => s.(tb := DeleteHandle(s.tb, m))
    case Bind(h, works, late) => s.(tb := Safebind(s.tb, s.held[h], works, late))
  }

  lemma UsersAdded(held: map<HandleId, Ptr>, h: HandleId, p: Ptr)
    requires h !in held
    ensures |Users(held[h := p], p)| == |Users(held, p)| + 1
    ensures forall q :: q != p ==> Users(held[h := p], q) == Users(held, q)
  {
    assert Users(held[h := p], p) == Users(held, p) + {h};
  }

  lemma UsersRemoved(held: map<HandleId, Ptr>, h: HandleId)
    requires h in held
    ensures |Users(held - {h}, held[h])| == |Users(held, held[h])| - 1
    ensures forall q :: q != held[h] ==> Users(held - {h}, q) == Users(held, q)
  {
    assert Users(held - {h}, held[h]) == Users(held, held[h]) - {h};
    assert h in Users(held, held[h]);
  }

  lemma NoUsers(held: map<HandleId, Ptr>, p: Ptr)
    requires forall h :: h in held ==> held[h] != p
    ensures Users(held, p) == {}
  {
  }

  lemma GetNewKeeps(s: State, h: HandleId, m: string, p: Ptr)
    requires Inv(s) && h !in s.held && p !in s.tb.infos && m !in s.tb.hmap
    ensures Inv(State(Table(s.tb.infos[p := Info(m, 1, false, false)], s.tb.hmap[m := p]), s.held[h := p]))
  {
    UsersAdded(s.held, h, p);
    NoUsers(s.held, p);
  }

  lemma GetOldKeeps(s: State, h: HandleId, p: Ptr)
    requires Inv(s) && h !in s.held && p in s.tb.infos
    ensures var info := s.tb.infos[p].(refcnt := s.tb.infos[p].refcnt + 1);
            Inv(State(s.tb.(infos := s.tb.infos[p := info]), s.held[h := p]))
  {
    UsersAdded(s.held, h, p);
  }

  lemma GetKeeps(s: State, h: HandleId, m: string, p: Ptr)
    requires Inv(s) && Enabled(s, Get(h, m, p))
    ensures Inv(Step(s, Get(h, m, p)))
  {
    if m !in s.tb.hmap {
      GetNewKeeps(s, h, m, p);
    } else if !s.tb.infos[s.tb.hmap[m]].del {
      GetOldKeeps(s, h, s.tb.hmap[m]);
    }
  }

  /** Deleting a name frees its record if it has no handle and marks it otherwise. */
  lemma DeleteKeeps(tb: Table, held: map<HandleId, Ptr>, m: string)
    requires Matched(tb) && forall h :: h in held ==> held[h] in tb.infos
    requires forall p :: p in tb.infos ==> tb.infos[p].refcnt == |Users(held, p)|
    requires forall p :: p in tb.infos && tb.infos[p].del ==> tb.infos[p].refcnt > 0 || tb.infos[p].name == m
    ensures Inv(State(DeleteHandle(tb, m), held))
  {
    if m in tb.hmap && tb.infos[tb.hmap[m]].refcnt == 0 {
      var p := tb.hmap[m];
      forall h | h in held
        ensures held[h] != p
      {
        assert held[h] == p ==> h in Users(held, p);
      }
    }
  }

  lemma DoneKeeps(s: State, h: HandleId)
    requires Inv(s) && h in s.held
    ensures Inv(Step(s, Done(h)))
  {
    var p := s.held[h];
    UsersRemoved(s.held, h);
    var info := s.tb.infos[p].(refcnt := s.tb.infos[p].refcnt - 1);
    var tb := s.tb.(infos := s.tb.infos[p := info]);
    assert Matched(tb);
    if info.refcnt == 0 && info.del {
      DeleteKeeps(tb, s.held - {h}, info.name);
    }
  }

  lemma StepKeeps(s: State, a: Act)
    requires Inv(s) && Enabled(s, a)
    ensures Inv(Step(s, a))
  {
    match a {
      case Get(h, m, p) => GetKeeps(s, h, m, p);
      case Done(h) => DoneKeeps(s, h);
      case Delete(m) => DeleteKeeps(s.tb, s.held, m);
      case Bind(h, works, late) => BindKeeps(s, h, works, late);
    }
  }

  lemma BindKeeps(s: State, h: HandleId, works: bool, late: bool)
    requires Inv(s) && h in s.held
    ensures Inv(s.(tb := Safebind(s.tb, s.held[h], works, late)))
  {
    assert h in Users(s.held, s.held[h]);
  }

  const EMPTY := State(Table(map[], map[]), map[])

  ghost predicate Leads(s: State, a: Act, s': State) {
    && Enabled(s, a)
    && (forall m :: m in s.tb.hmap ==> s.tb.hmap[m] in s.tb.infos)
    && (forall h :: h in s.held ==> s.held[h] in s.tb.infos)
    && s' == Step(s, a)
  }

  ghost predicate Run(trace: seq<State>, acts: seq<Act>) {
    && |trace| == |acts| + 1 && trace[0] == EMPTY
    && forall k :: 0 <= k < |acts| ==> Leads(trace[k], acts[k], trace[k + 1])
  }

  lemma {:induction false} RunKeeps(trace: seq<State>, acts: seq<Act>, k: nat)
    requires Run(trace, acts) && k <= |acts|
    ensures Inv(trace[k])
  {
    if k > 0 {
      RunKeeps(trace, acts, k - 1);
      assert Leads(trace[k - 1], acts[k - 1], trace[k]);
      StepKeeps(trace[k - 1], acts[k - 1]);
    }
  }

  /** The conditions on the states of a run exclude nothing: a run can be continued
      with every act that is enabled. */
  lemma RunExtends(trace: seq<State>, acts: seq<Act>, a: Act)
    requires Run(trace, acts) && Enabled(trace[|acts|], a)
    ensures Inv(trace[|acts|]) && Run(trace + [Step(trace[|acts|], a)], acts + [a])
  {
    RunKeeps(trace, acts, |acts|);
    var trace', acts' := trace + [Step(trace[|acts|], a)], acts + [a];
    assert Leads(trace[|acts|], a, Step(trace[|acts|], a));
    forall k | 0 <= k < |acts'|
      ensures Leads(trace'[k], acts'[k], trace'[k + 1])
    {
      assert k < |acts| ==> Leads(trace[k], acts[k], trace[k + 1]);
    }
  }

  /** In every state of every run: a handle's record is there, is the one its name
      leads to, and counts its handles; and what a step frees has no handle left. */
  lemma HandlesSound(trace: seq<State>, acts: seq<Act>, k: nat)
    requires Run(trace, acts) && k <= |acts|
    ensures forall h :: h in trace[k].held ==>
              var p := trace[k].held[h];
              && p in trace[k].tb.infos && trace[k].tb.infos[p].refcnt == |Users(trace[k].held, p)| > 0
              && var m := trace[k].tb.infos[p].name; m in trace[k].tb.hmap && trace[k].tb.hmap[m] == p
    ensures forall p :: p in trace[k].tb.infos && trace[k].tb.infos[p].del ==> Users(trace[k].held, p) != {}
    ensures k > 0 ==>
              forall p :: p in trace[k - 1].tb.infos && p !in trace[k].tb.infos ==> Users(trace[k].held, p) == {}
  {
    RunKeeps(trace, acts, k);
    forall h | h in trace[k].held
      ensures |Users(trace[k].held, trace[k].held[h])| > 0
    {
      assert h in Users(trace[k].held, trace[k].held[h]);
    }
  }

  // The manager object.

  class Manager {
    var infos: map<Ptr, Info>
    var hmap: map<string, Ptr>

    ghost function View(): Table
      reads this
    {
      Table(infos, hmap)
    }

    constructor ()
      ensures View() == EMPTY.tb
    {
      infos, hmap := map[], map[];
    }

    /** `p` is what the allocation of a new record returns. */
    method Get(m: string, p: Ptr) returns (h: Option<Ptr>)
      requires Matched(View()) && p !in infos
      modifies this
      ensures Matched(View()) && (View(), h) == GetHandle(old(View()), m, p)
    {
      h := None;
      if m !in hmap {
        infos := infos[p := Info(m, 1, false, false)];
        hmap := hmap[m := p];
        h := Some(p);
      } else if !infos[hmap[m]].del {
        var q := hmap[m];
        infos := infos[q := infos[q].(refcnt := infos[q].refcnt + 1)];
        h := Some(q);
      }
    }

    method Delete(m: string)
      requires Matched(View())
      modifies this
      ensures Matched(View()) && View() == DeleteHandle(old(View()), m)
    {
      if m in hmap {
        var p := hmap[m];
        if infos[p].refcnt == 0 {
          hmap := hmap - {m};
          infos := infos - {p};
        } else {
          infos := infos[p := infos[p].(del := true)];
        }
      }
    }

    method Done(p: Ptr)
      requires Matched(View()) && p in infos
      modifies this
      ensures Matched(View()) && View() == DoneHandle(old(View()), p)
    {
      infos := infos[p := infos[p].(refcnt := infos[p].refcnt - 1)];
      if infos[p].refcnt == 0 && infos[p].del {
        Delete(infos[p].name);
      }
    }

    /** A handle that got no record binds nothing.  `works` is whether the attempt to
        bind succeeds; `late` is whether a mark for deletion came after the test for
        it.  The result is whether there is a connection to use. */
    method Bind(h: Option<Ptr>, works: bool, late: bool) returns (usable: bool)
      requires Matched(View()) && (h.Some? ==> h.value in infos)
      modifies this
      ensures Matched(View())
      ensures View() == if h.Some? then Safebind(old(View()), h.value, works, late) else old(View())
      ensures usable <==> h.Some? && infos[h.value].bound && (late || !infos[h.value].del)
    {
      if h.None? {
        return false;
      }
      var p := h.value;
      if infos[p].del && !late {
        return false;
      }
      if infos[p].bound {
        return true;
      }
      infos := infos[p := if works then infos[p].(bound := true) else infos[p].(del := true)];
      return works;
    }
  }
}

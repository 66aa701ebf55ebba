/**
 The bounded blocking queue (rpc/fifo.h) under any number of threads.  A step is
 one pass under the mutex; a thread that has to wait sleeps on one of the two
 condition variables until it is signalled, or until it wakes up unasked, and then
 makes another pass.
 */
module Fifo {
  import opened Options

  type Tid = nat

  /** `max` is 0 for a queue without limit.  `Wait` sets are asleep, `Woken` ones
      have been signalled and not yet made their next pass; `item` is what each
      blocked producer has come to put in. */
  datatype State<T> = State(
    queue: seq<T>,
    max: nat,
    getWait: set<Tid>,
    getWoken: set<Tid>,
    putWait: set<Tid>,
    putWoken: set<Tid>,
    item: map<Tid, T>)

  /** `w` is whom a signal of the step wakes, if anyone sleeps there. */
  datatype Act<T> =
    | Enq(t: Tid, e: T, blocking: bool, w: Tid)
    | EnqAgain(t: Tid, w: Tid)
    | Deq(t: Tid, w: Tid)
    | DeqAgain(t: Tid, w: Tid)
    | WakeUnasked(t: Tid)

  predicate HasSpace<T>(s: State<T>) {
    s.max == 0 || |s.queue| < s.max
  }

  function SignalGetter<T>(s: State<T>, w: Tid): State<T> {
    if w in s.getWait then s.(getWait := s.getWait - {w}, getWoken := s.getWoken + {w}) else s
  }

  function SignalPutter<T>(s: State<T>, w: Tid): State<T> {
    if w in s.putWait then s.(putWait := s.putWait - {w}, putWoken := s.putWoken + {w}) else s
  }

  function Push<T>(s: State<T>, e: T, w: Tid): State<T> {
    SignalGetter(s.(queue := s.queue + [e]), w)
  }

  function Pop<T>(s: State<T>, w: Tid): State<T>
    requires s.queue != []
  {
    var s' := s.(queue := s.queue[1..]);
    if s.max != 0 && |s'.queue| < s.max then SignalPutter(s', w) else s'
  }

  predicate Outside<T>(s: State<T>, t: Tid) {
    t !in s.getWait && t !in s.getWoken && t !in s.putWait && t !in s.putWoken
  }

  predicate Enabled<T>(s: State<T>, a: Act<T>) {
    match a
    case Enq(t, _, _, w) => Outside(s, t) && (s.getWait != {} ==> w in s.getWait)
    case EnqAgain(t, w) => t in s.putWoken && t in s.item && (s.getWait != {} ==> w in s.getWait)
    case Deq(t, w) => Outside(s, t) && (s.putWait != {} ==> w in s.putWait)
    case DeqAgain(t, w) => t in s.getWoken && (s.putWait != {} ==> w in s.putWait)
    case WakeUnasked(t) => t in s.getWait || t in s.putWait
  }

  function Step<T>(s: State<T>, a: Act<T>): State<T>
    requires Enabled(s, a)
  {
    match a
    case Enq(t, e, blocking, w) =>
      if HasSpace(s) then Push(s, e, w)
      else if blocking then s.(putWait := s.putWait + {t}, item := s.item[t := e])
      else s
    case EnqAgain(t, w) =>
      var e, s' := s.item[t], s.(putWoken := s.putWoken - {t});
      if HasSpace(s) then Push(s', e, w) else s'.(putWait := s.putWait + {t})
    case Deq(t, w) =>
      if s.queue == [] then s.(getWait := s.getWait + {t}) else Pop(s, w)
    case DeqAgain(t, w) =>
      var s' := s.(getWoken := s.getWoken - {t});
      if s.queue == [] then s'.(getWait := s.getWait + {t}) else Pop(s', w)
    case WakeUnasked(t) => SignalPutter(SignalGetter(s, t), t)
  }

  /** The item that a step puts in, and the one that it takes out. */
  function In<T>(s: State<T>, a: Act<T>): seq<T>
    requires Enabled(s, a)
  {
    match a
    case Enq(_, e, _, _) => if HasSpace(s) then [e] else []
    case EnqAgain(t, _) => if HasSpace(s) then [s.item[t]] else []
    case _ => []
  }

  function Out<T>(s: State<T>, a: Act<T>): seq<T>
    requires Enabled(s, a)
  {
    if (a.Deq? || a.DeqAgain?) && s.queue != [] then [s.queue[0]] else []
  }

  predicate InOnePlace<T>(s: State<T>) {
    && s.getWait !! s.getWoken && s.putWait !! s.putWoken
    && s.getWait + s.getWoken !! s.putWait + s.putWoken
  }

  /** Each thread is in one place; the limit holds; and a sleeper that nobody has
      signalled has nothing to do but what others have been woken for. */
  predicate Inv<T>(s: State<T>) {
    && InOnePlace(s) && s.putWait + s.putWoken <= s.item.Keys
    && (s.max != 0 ==> |s.queue| <= s.max)
    && (s.getWait != {} ==> |s.queue| <= |s.getWoken|)
    && (s.putWait != {} ==> s.max != 0 && s.max - |s.queue| <= |s.putWoken|)
  }

  function New<T>(max: nat): State<T> {
    State([], max, {}, {}, {}, {}, map[])
  }

  lemma GetterSignalled<T>(s: State<T>, w: Tid)
    requires s.getWait !! s.getWoken && (s.getWait != {} ==> w in s.getWait)
    ensures var s' := SignalGetter(s, w);
            && s'.getWait !! s'.getWoken && s'.getWait + s'.getWoken == s.getWait + s.getWoken
            && (s'.getWait != {} ==> |s'.getWoken| == |s.getWoken| + 1)
  {
  }

  lemma PutterSignalled<T>(s: State<T>, w: Tid)
    requires s.putWait !! s.putWoken && (s.putWait != {} ==> w in s.putWait)
    ensures var s' := SignalPutter(s, w);
            && s'.putWait !! s'.putWoken
            && s'.putWait + s'.putWoken == s.putWait + s.putWoken
            && (s'.putWait != {} ==> |s'.putWoken| == |s.putWoken| + 1)
  {
  }

  lemma PushKeeps<T>(s: State<T>, e: T, w: Tid)
    requires InOnePlace(s) && s.putWait + s.putWoken <= s.item.Keys
    requires HasSpace(s) && (s.getWait != {} ==> w in s.getWait && |s.queue| <= |s.getWoken|)
    requires s.putWait != {} ==> s.max != 0 && s.max - |s.queue| <= |s.putWoken| + 1
    ensures Inv(Push(s, e, w))
  {
    GetterSignalled(s.(queue := s.queue + [e]), w);
  }

  lemma PopKeeps<T>(s: State<T>, w: Tid)
    requires InOnePlace(s) && s.putWait + s.putWoken <= s.item.Keys
    requires s.queue != [] && (s.max != 0 ==> |s.queue| <= s.max)
    requires s.getWait != {} ==> |s.queue| <= |s.getWoken| + 1
    requires s.putWait != {} ==> w in s.putWait && s.max != 0 && s.max - |s.queue| <= |s.putWoken|
    ensures Inv(Pop(s, w))
  {
    PutterSignalled(s.(queue := s.queue[1..]), w);
  }

  lemma EnqKeeps<T>(s: State<T>, a: Act<T>)
    requires Inv(s) && Enabled(s, a) && (a.Enq? || a.EnqAgain?)
    ensures Inv(Step(s, a))
  {
    var s' := if a.Enq? then s else s.(putWoken := s.putWoken - {a.t});
    if HasSpace(s) {
      PushKeeps(s', if a.Enq? then a.e else s.item[a.t], a.w);
    }
  }

  lemma DeqKeeps<T>(s: State<T>, a: Act<T>)
    requires Inv(s) && Enabled(s, a) && (a.Deq? || a.DeqAgain?)
    ensures Inv(Step(s, a))
  {
    if a.DeqAgain? {
      DeqAgainKeeps(s, a.t, a.w);
    } else if s.queue != [] {
      PopKeeps(s, a.w);
    }
  }

  lemma DeqAgainKeeps<T>(s: State<T>, t: Tid, w: Tid)
    requires Inv(s) && Enabled(s, DeqAgain(t, w))
    ensures Inv(Step(s, DeqAgain(t, w)))
  {
    if s.queue != [] {
      PopKeeps(s.(getWoken := s.getWoken - {t}), w);
    }
  }

  lemma StepKeeps<T>(s: State<T>, a: Act<T>)
    requires Inv(s) && Enabled(s, a)
    ensures Inv(Step(s, a))
  {
    if a.WakeUnasked? {
      WakeKeeps(s, a.t);
    } else if a.Enq? || a.EnqAgain? {
      EnqKeeps(s, a);
    } else {
      DeqKeeps(s, a);
    }
  }

  lemma WakeKeeps<T>(s: State<T>, t: Tid)
    requires Inv(s) && (t in s.getWait || t in s.putWait)
    ensures Inv(SignalPutter(SignalGetter(s, t), t))
  {
    if t in s.getWait {
      GetterSignalled(s, t);
    } else {
      PutterSignalled(s, t);
    }
  }

  /** A caller of enq is through exactly if there is room; otherwise it waits with its own
      item, or, if it does not want to wait, is refused and nothing happens. */
  lemma EnqAnswers<T>(s: State<T>, a: Act<T>)
    requires Enabled(s, a) && a.Enq?
    ensures var s' := Step(s, a);
            if s.max == 0 || |s.queue| < s.max then In(s, a) == [a.e] && Outside(s', a.t)
            else In(s, a) == [] &&
                 if a.blocking then a.t in s'.putWait && a.t in s'.item && s'.item[a.t] == a.e else s' == s
  {
  }

  /** After a wait the item is still the same. */
  lemma EnqAgainAnswers<T>(s: State<T>, a: Act<T>)
    requires Enabled(s, a) && a.EnqAgain? && InOnePlace(s)
    ensures var s' := Step(s, a);
            && s'.item == s.item
            && if s.max == 0 || |s.queue| < s.max then In(s, a) == [s.item[a.t]] && Outside(s', a.t)
               else In(s, a) == [] && a.t in s'.putWait
  {
    OutsideOnce(s, a.t);
    PushLeaves(s.(putWoken := s.putWoken - {a.t}), s.item[a.t], a.w, a.t);
  }

  lemma PushLeaves<T>(s: State<T>, e: T, w: Tid, t: Tid)
    requires Outside(s, t)
    ensures Outside(Push(s, e, w), t) && Push(s, e, w).item == s.item
  {
  }

  lemma OutsideOnce<T>(s: State<T>, t: Tid)
    requires InOnePlace(s)
    ensures t in s.putWoken ==> Outside(s.(putWoken := s.putWoken - {t}), t)
    ensures t in s.getWoken ==> Outside(s.(getWoken := s.getWoken - {t}), t)
  {
  }

  /** A caller of deq gets the first item, or waits exactly if there is none. */
  lemma DeqAnswers<T>(s: State<T>, a: Act<T>)
    requires InOnePlace(s) && Enabled(s, a) && (a.Deq? || a.DeqAgain?)
    ensures var s' := Step(s, a);
            if s.queue == [] then Out(s, a) == [] && s'.queue == [] && a.t in s'.getWait
            else Out(s, a) + s'.queue == s.queue && |Out(s, a)| == 1 && Outside(s', a.t)
  {
    OutsideOnce(s, a.t);
  }

  /** A thread that wakes unasked is awake, and nothing else has happened. */
  lemma WakeAnswers<T>(s: State<T>, t: Tid)
    requires InOnePlace(s) && Enabled(s, WakeUnasked(t))
    ensures var s' := Step(s, WakeUnasked(t));
            && s'.queue == s.queue && s'.item == s.item && t !in s'.getWait + s'.putWait
            && s'.getWait == s.getWait - {t} && s'.putWait == s.putWait - {t}
            && (t in s'.getWoken <==> t in s.getWait) && (t in s'.putWoken <==> t in s.putWait)
  {
  }

  // Runs.

  ghost predicate Run<T>(s: State<T>, acts: seq<Act<T>>)
    decreases |acts|, 0
  {
    acts == [] || (Run(s, acts[..|acts| - 1]) && Enabled(After(s, acts[..|acts| - 1]), acts[|acts| - 1]))
  }

  ghost function After<T>(s: State<T>, acts: seq<Act<T>>): State<T>
    requires Run(s, acts)
    decreases |acts|, 1
  {
    if acts == [] then s else Step(After(s, acts[..|acts| - 1]), acts[|acts| - 1])
  }

  /** All items put in, and all items taken out, in order. */
  ghost function Ins<T>(s: State<T>, acts: seq<Act<T>>): seq<T>
    requires Run(s, acts)
    decreases |acts|
  {
    if acts == [] then []
    else var before := acts[..|acts| - 1]; Ins(s, before) + In(After(s, before), acts[|acts| - 1])
  }

  ghost function Outs<T>(s: State<T>, acts: seq<Act<T>>): seq<T>
    requires Run(s, acts)
    decreases |acts|
  {
    if acts == [] then []
    else var before := acts[..|acts| - 1]; Outs(s, before) + Out(After(s, before), acts[|acts| - 1])
  }

  lemma QueueMoves<T>(s: State<T>, a: Act<T>)
    requires Enabled(s, a)
    ensures Out(s, a) + Step(s, a).queue == s.queue + In(s, a) && Step(s, a).max == s.max
  {
  }

  lemma {:induction false} RunKeeps<T>(s: State<T>, acts: seq<Act<T>>)
    requires Inv(s) && Run(s, acts)
    ensures Inv(After(s, acts)) && After(s, acts).max == s.max
    decreases |acts|
  {
    if acts != [] {
      var before, a := acts[..|acts| - 1], acts[|acts| - 1];
      RunKeeps(s, before);
      StepKeeps(After(s, before), a);
      QueueMoves(After(s, before), a);
    }
  }

  lemma Regroup<T>(outs: seq<T>, out: seq<T>, q: seq<T>, q': seq<T>, in': seq<T>)
    requires out + q' == q + in'
    ensures (outs + out) + q' == (outs + q) + in'
  {
    assert (outs + out) + q' == outs + (out + q');
    assert outs + (q + in') == (outs + q) + in';
  }

  lemma Associates<T>(a: seq<T>, b: seq<T>, c: seq<T>)
    ensures (a + b) + c == a + (b + c)
  {
  }

  lemma {:induction false} Conserved<T>(s: State<T>, acts: seq<Act<T>>)
    requires Run(s, acts)
    ensures Outs(s, acts) + After(s, acts).queue == s.queue + Ins(s, acts)
    decreases |acts|
  {
    if acts == [] {
      assert s.queue + [] == s.queue;
    } else {
      var before, a := acts[..|acts| - 1], acts[|acts| - 1];
      var here := After(s, before);
      Conserved(s, before);
      QueueMoves(here, a);
      Regroup(Outs(s, before), Out(here, a), here.queue, Step(here, a).queue, In(here, a));
      Associates(s.queue, Ins(s, before), In(here, a));
    }
  }

  /** What was taken out followed by what is in the queue is what was put in, in
      order; the limit holds. */
  lemma FirstInFirstOut<T>(max: nat, acts: seq<Act<T>>)
    requires Run(New<T>(max), acts)
    ensures Outs(New<T>(max), acts) + After(New<T>(max), acts).queue == Ins(New<T>(max), acts)
    ensures max != 0 ==> |After(New<T>(max), acts).queue| <= max
  {
    Conserved(New<T>(max), acts);
    RunKeeps(New<T>(max), acts);
    assert [] + Ins(New<T>(max), acts) == Ins(New<T>(max), acts);
  }

  /** While a consumer sleeps unsignalled, items do not outnumber the consumers that
      are awake for them; and dually for producers and free places. */
  lemma NobodyStranded<T>(max: nat, acts: seq<Act<T>>)
    requires Run(New<T>(max), acts)
    ensures var s := After(New<T>(max), acts);
            && (s.getWait != {} ==> |s.queue| <= |s.getWoken|)
            && (s.putWait != {} ==> max != 0 && max - |s.queue| <= |s.putWoken|)
  {
    RunKeeps(New<T>(max), acts);
  }

  // The queue object.

  datatype Pass = Through | MustWait | Refused

  class Queue<T> {
    var q: seq<T>
    const max: nat

    constructor (limit: nat)
      ensures q == [] && max == limit
    {
      q := [];
      max := limit;
    }

    ghost predicate Stands(s: State<T>)
      reads this
    {
      q == s.queue && max == s.max
    }

    /** One pass of enq, the first or one after a wait; `signal` says that a consumer is
        signalled. */
    method EnqPass(e: T, blocking: bool, ghost s: State<T>, ghost a: Act<T>) returns (p: Pass, signal: bool)
      requires Stands(s) && Enabled(s, a)
      requires (a.Enq? && a.e == e && a.blocking == blocking) || (a.EnqAgain? && s.item[a.t] == e && blocking)
      modifies this
      ensures Stands(Step(s, a))
      ensures signal <==> p == Through
      ensures p == if In(s, a) != [] then Through else if blocking then MustWait else Refused
    {
      if max == 0 || |q| < max {
        q := q + [e];
        return Through, true;
      }
      if blocking {
        return MustWait, false;
      }
      return Refused, false;
    }

    /** One pass of deq, the first or one after a wait; `signal` says that a producer is
        signalled. */
    method DeqPass(ghost s: State<T>, ghost a: Act<T>) returns (e: Option<T>, signal: bool)
      requires Stands(s) && Enabled(s, a) && (a.Deq? || a.DeqAgain?)
      modifies this
      ensures Stands(Step(s, a))
      ensures Out(s, a) == if e.Some? then [e.value] else []
      ensures signal <==> e.Some? && max != 0 && |q| < max
    {
      if q == [] {
        return None, false;
      }
      e := Some(q[0]);
      q := q[1..];
      signal := max != 0 && |q| < max;
    }
  }
}

/** Shutdown of the mailbox: who gets the marker, and what is still broadcast once it is queued. */
module MailboxShutdown {
  import opened Common
  import opened Mailbox
  import opened MailboxRuns

  lemma FinalStep(s: State, a: Action)
    requires s.disp.Final() && Enabled(s, a)
    ensures Apply(s, a).disp.Final() && Apply(s, a).dispatched == s.dispatched
  {
    hide Ids, Registered, UnrefMessage, RefMessage, NewMessage;
    match a
    case Publisher(p) =>
    case Loop(l) =>
    case Delivery(d) => DeliveryLine(s, d);
    case Client(c) => ClientLine(s, c);
  }

  /** Once the dispatcher hands the shutdown marker on, nothing is broadcast any more. */
  lemma {:induction false} ShutdownIsFinal(s: State, run: seq<Action>)
    requires s.disp.Final() && Legal(s, run)
    ensures After(s, run).disp.Final() && After(s, run).dispatched == s.dispatched
    decreases |run|
  {
    hide Enabled, Apply;
    if run != [] {
      FinalStep(s, run[0]);
      ShutdownIsFinal(Apply(s, run[0]), run[1..]);
    }
  }

  /** When the dispatcher is done with the marker, every subscriber then registered has got
      it: the marker is all its queue holds, or its consumer has taken it, unless that very
      push failed; and then its queue is empty. */
  lemma MarkerReachesAll(run: seq<Action>, i: nat)
    requires Legal(INIT, run) && LoopCan(After(INIT, run), Unlock)
    requires After(INIT, run).disp.item.Marker?
    requires i < |After(INIT, run).subs| && After(INIT, run).subs[i].registered
    ensures var sub := After(INIT, run).subs[i];
            && (sub.queue == [Marker] || sub.queue == [])
            && (sub.queue == [] ==> sub.tookMarker || sub.unmarked)
  {
    hide Legal, After, Counted, Lined;
    InvariantAtStart();
    InvariantKept(INIT, run);
    assert SubscriberOk(After(INIT, run), i);
  }

  /** The dispatcher cannot broadcast a message any more. */
  predicate Halting(d: Dispatcher)
  {
    d.Final() || (d.Popped? && d.item.Marker?) || (d.Releasing? && d.stop)
  }

  ghost predicate Within(q: seq<nat>, ahead: set<nat>)
  {
    forall m :: m in q ==> m in ahead
  }

  /** What was broadcast is `ahead` of a shutdown marker, and so is all that is still in front of it. */
  ghost predicate Sealed(s: State, ahead: set<nat>)
  {
    && Within(s.dispatched, ahead)
    && (Halting(s.disp) || exists p :: SealedAt(s, ahead, p))
  }

  ghost predicate SealedAt(s: State, ahead: set<nat>, p: nat)
  {
    p < |s.mq| && s.mq[p] == Marker && Within(InFlight(s.disp), ahead) && Within(Ids(s.mq[..p]), ahead)
  }

  /** The queue is not cleared again, and the read lock is not refused while the marker is out. */
  predicate Smooth(s: State, a: Action)
  {
    a != Publisher(ClearQueue) && !(a == Loop(LockFails) && s.disp.Popped? && s.disp.item.Marker?)
  }

  ghost predicate SmoothRun(s: State, run: seq<Action>)
    requires Legal(s, run)
    decreases |run|
  {
    run != [] ==> Smooth(s, run[0]) && SmoothRun(Apply(s, run[0]), run[1..])
  }

  lemma SealedStep(s: State, a: Action, ahead: set<nat>)
    requires Sealed(s, ahead) && Enabled(s, a) && Smooth(s, a)
    ensures Sealed(Apply(s, a), ahead)
  {
    hide Ids, Registered, UnrefMessage, RefMessage, NewMessage, Within;
    var s' := Apply(s, a);
    if Halting(s.disp) {
      HaltingStep(s, a);
    } else {
      var p: nat :| SealedAt(s, ahead, p);
      match a
      case Publisher(x) =>
        assert s'.mq[..p] == s.mq[..p];
        assert SealedAt(s', ahead, p);
      case Loop(l) =>
        SealedLoop(s, l, ahead, p);
      case Delivery(d) =>
        DeliveryLine(s, d);
        assert SealedAt(s', ahead, p) || Halting(s'.disp);
      case Client(c) =>
        ClientLine(s, c);
        assert SealedAt(s', ahead, p);
    }
  }

  lemma HaltingStep(s: State, a: Action)
    requires Halting(s.disp) && Enabled(s, a) && Smooth(s, a)
    ensures Halting(Apply(s, a).disp) && Apply(s, a).dispatched == s.dispatched
  {
    hide Ids, Registered, UnrefMessage, RefMessage, NewMessage;
    match a
    case Publisher(p) =>
    case Loop(l) =>
      if l == Lock {
        IdsOne(s.disp.item);
        Empty(s.dispatched);
      }
    case Delivery(d) => DeliveryLine(s, d);
    case Client(c) => ClientLine(s, c);
  }

  lemma SealedLoop(s: State, l: LoopStep, ahead: set<nat>, p: nat)
    requires LoopCan(s, l) && !Halting(s.disp) && Within(s.dispatched, ahead) && SealedAt(s, ahead, p)
    ensures Sealed(Looped(s, l), ahead)
  {
    hide Ids, Registered, UnrefMessage;
    var s' := Looped(s, l);
    match l
    case Pop =>
      if p > 0 {
        var q := s.mq[..p];
        IdsHead(q);
        IdsOne(q[0]);
        assert s'.mq[..p - 1] == q[1..];
        assert SealedAt(s', ahead, p - 1);
      }
    case PopFails =>
    case Lock =>
      IdsOne(s.disp.item);
      assert SealedAt(s', ahead, p);
    case LockFails =>
      assert SealedAt(s', ahead, p);
    case IteratorFails =>
    case Unlock =>
      assert SealedAt(s', ahead, p);
    case Release =>
      assert SealedAt(s', ahead, p);
  }

  /** The step that breaks a seal: the queue is cleared, or the lock is refused for a marker and no
      other marker takes its place. */
  ghost predicate Breaks(s: State, a: Action, ahead: set<nat>)
  {
    || (a == Publisher(ClearQueue) && !Halting(s.disp))
    || (a == Loop(LockFails) && s.disp.Popped? && s.disp.item.Marker? && !exists p :: MarkedAt(s.mq, ahead, p))
  }

  ghost predicate MarkedAt(q: seq<Item>, ahead: set<nat>, p: nat)
  {
    p < |q| && q[p] == Marker && Within(Ids(q[..p]), ahead)
  }

  /** One step of any participant loses the seal exactly if it is one of those. */
  lemma SealLostIff(s: State, a: Action, ahead: set<nat>)
    requires Sealed(s, ahead) && Enabled(s, a)
    ensures Sealed(Apply(s, a), ahead) <==> !Breaks(s, a, ahead)
  {
    hide Ids, Registered, UnrefMessage, RefMessage, NewMessage, Within;
    var s' := Apply(s, a);
    if a == Publisher(ClearQueue) {
      assert forall p: nat :: !SealedAt(s', ahead, p);
    } else if a == Loop(LockFails) && s.disp.item.Marker? {
      NothingInFlight(s', ahead);
      assert forall p: nat :: SealedAt(s', ahead, p) <==> MarkedAt(s.mq, ahead, p);
    } else {
      SealedStep(s, a, ahead);
    }
  }

  lemma NothingInFlight(s: State, ahead: set<nat>)
    requires !s.disp.Popped?
    ensures Within(InFlight(s.disp), ahead)
  {
  }

  ghost predicate Unbroken(s: State, run: seq<Action>, ahead: set<nat>)
    requires Legal(s, run)
    decreases |run|
  {
    run != [] ==> !Breaks(s, run[0], ahead) && Unbroken(Apply(s, run[0]), run[1..], ahead)
  }

  ghost predicate AlwaysSealed(s: State, run: seq<Action>, ahead: set<nat>)
    requires Legal(s, run)
    decreases |run|
  {
    Sealed(s, ahead) && (run != [] ==> AlwaysSealed(Apply(s, run[0]), run[1..], ahead))
  }

  /** Along any run a seal holds throughout exactly when no step breaks it. */
  lemma {:induction false} SealedThroughout(s: State, run: seq<Action>, ahead: set<nat>)
    requires Sealed(s, ahead) && Legal(s, run)
    ensures AlwaysSealed(s, run, ahead) <==> Unbroken(s, run, ahead)
    decreases |run|
  {
    hide Enabled, Apply, Breaks, Sealed;
    if run != [] {
      SealLostIff(s, run[0], ahead);
      if Sealed(Apply(s, run[0]), ahead) {
        SealedThroughout(Apply(s, run[0]), run[1..], ahead);
      }
    }
  }

  /** Nothing queued behind the shutdown marker is ever broadcast: whatever happens next,
      every message broadcast was ahead of the marker. */
  lemma {:induction false} NothingBehindMarker(s: State, run: seq<Action>, ahead: set<nat>)
    requires Sealed(s, ahead) && Legal(s, run) && Unbroken(s, run, ahead)
    ensures forall m :: m in After(s, run).dispatched ==> m in ahead
    decreases |run|
  {
    hide Enabled, Apply, Breaks;
    if run != [] {
      SealLostIff(s, run[0], ahead);
      NothingBehindMarker(Apply(s, run[0]), run[1..], ahead);
    }
  }

  lemma {:induction false} SmoothIsUnbroken(s: State, run: seq<Action>, ahead: set<nat>)
    requires Legal(s, run) && SmoothRun(s, run)
    ensures Unbroken(s, run, ahead)
    decreases |run|
  {
    hide Enabled, Apply;
    if run != [] {
      SmoothIsUnbroken(Apply(s, run[0]), run[1..], ahead);
    }
  }

  /** From the moment a shutdown marker is queued, only what was in line before it is broadcast. */
  lemma ShutdownSeals(s: State, run: seq<Action>, ahead: set<nat>)
    requires forall m :: m in ahead <==> m in Line(s)
    requires var s' := Apply(s, Publisher(PushMarker)); Legal(s', run) && Unbroken(s', run, ahead)
    ensures forall m :: m in After(Apply(s, Publisher(PushMarker)), run).dispatched ==> m in Line(s)
  {
    hide Legal, After, Unbroken, Ids;
    var s' := Apply(s, Publisher(PushMarker));
    assert s'.mq[..|s.mq|] == s.mq;
    assert SealedAt(s', ahead, |s.mq|);
    NothingBehindMarker(s', run, ahead);
  }

  /** Were the read lock refused while the marker is out, the marker would be lost and a
      message behind it would be broadcast. */
  lemma RefusedLockLosesMarker()
    ensures var run := [Publisher(Create), Publisher(PushMarker), Publisher(Publish(0)),
                        Loop(Pop), Loop(LockFails), Loop(Pop), Loop(Lock)];
            Legal(INIT, run) && After(INIT, run).dispatched == [0]
  {
    hide Legal, After;
    var s1 := Apply(INIT, Publisher(Create));
    var s2 := Apply(s1, Publisher(PushMarker));
    var s3 := Apply(s2, Publisher(Publish(0)));
    var s4 := Apply(s3, Loop(Pop));
    var s5 := Apply(s4, Loop(LockFails));
    var s6 := Apply(s5, Loop(Pop));
    var s7 := Apply(s6, Loop(Lock));
    assert s3.mq == [Marker, Msg(0)];
    assert s7.dispatched == [0];
    var r7: seq<Action> := [Loop(Lock)];
    var r6 := [Loop(Pop)] + r7;
    var r5 := [Loop(LockFails)] + r6;
    var r4 := [Loop(Pop)] + r5;
    var r3 := [Publisher(Publish(0))] + r4;
    var r2 := [Publisher(PushMarker)] + r3;
    NoRun(s7);
    RunCons(s6, Loop(Lock), []);
    assert [Loop(Lock)] + [] == r7;
    RunCons(s5, Loop(Pop), r7);
    RunCons(s4, Loop(LockFails), r6);
    RunCons(s3, Loop(Pop), r5);
    RunCons(s2, Publisher(Publish(0)), r4);
    RunCons(s1, Publisher(PushMarker), r3);
    RunCons(INIT, Publisher(Create), r2);
    assert [Publisher(Create)] + r2 == [Publisher(Create), Publisher(PushMarker), Publisher(Publish(0)),
                        Loop(Pop), Loop(LockFails), Loop(Pop), Loop(Lock)];
  }

  lemma NoRun(s: State)
    ensures Legal(s, []) && After(s, []) == s
  {
  }

  lemma RunCons(s: State, a: Action, run: seq<Action>)
    requires Enabled(s, a) && Legal(Apply(s, a), run)
    ensures Legal(s, [a] + run) && After(s, [a] + run) == After(Apply(s, a), run)
  {
    hide Enabled, Apply;
    assert ([a] + run)[1..] == run;
  }

  // ---------------------------------------------------------------- exactly when the seal holds

  // -- states that can be reached smoothly

  ghost predicate Leads(s: State, run: seq<Action>, t: State)
  {
    Legal(s, run) && SmoothRun(s, run) && After(s, run) == t
  }

  ghost predicate Reaches(s: State, t: State)
  {
    exists run :: Leads(s, run, t)
  }

  lemma ReachesItself(s: State)
    ensures Reaches(s, s)
  {
    assert Leads(s, [], s);
  }

  lemma {:induction false} LeadsOn(s: State, run: seq<Action>, t: State, a: Action)
    requires Leads(s, run, t) && Enabled(t, a) && Smooth(t, a)
    ensures Leads(s, run + [a], Apply(t, a))
    decreases |run|
  {
    hide Enabled, Apply, Smooth;
    if run == [] {
      assert [] + [a] == [a] && [a][1..] == [];
      assert Leads(Apply(t, a), [], Apply(t, a));
    } else {
      LeadsOn(Apply(s, run[0]), run[1..], t, a);
      assert (run + [a])[1..] == run[1..] + [a];
    }
  }

  lemma ReachesOn(s: State, t: State, a: Action)
    requires Reaches(s, t) && Enabled(t, a) && Smooth(t, a)
    ensures Reaches(s, Apply(t, a))
  {
    hide Leads, Enabled, Apply, Smooth;
    var run :| Leads(s, run, t);
    LeadsOn(s, run, t, a);
  }

  /** Queue, broadcasts and messages are as in `s`, but for what is said. */
  ghost predicate Like(s: State, t: State, mq: seq<Item>, dispatched: seq<nat>)
  {
    t.mq == mq && t.dispatched == dispatched && t.msgs.next == s.msgs.next
  }

  // -- the dispatcher can always finish a broadcast

  lemma {:induction false} Finishes(s: State, t: State) returns (u: State)
    requires Reaches(s, t) && t.disp.Broadcasting? && t.disp.item.Msg?
    ensures Reaches(s, u) && u.disp.Idle? && Like(t, u, t.mq, t.dispatched)
    decreases |t.disp.todo|
  {
    hide Reaches, Ids;
    if t.disp.todo == {} {
      ReachesOn(s, t, Loop(Unlock));
      u := Releases(s, Apply(t, Loop(Unlock)));
    } else {
      var i :| i in t.disp.todo;
      FewerLeft(t.disp.todo, i);
      var v := Serves(s, t, i);
      u := Finishes(s, v);
    }
  }

  /** Subscriber `i` gets the message, unless its count is at the limit. */
  lemma Serves(s: State, t: State, i: nat) returns (u: State)
    requires Reaches(s, t) && t.disp.Broadcasting? && t.disp.item.Msg? && i in t.disp.todo
    ensures Reaches(s, u) && u.disp == Broadcasting(t.disp.item, t.disp.todo - {i}) && Like(t, u, t.mq, t.dispatched)
    ensures Count(t.msgs, t.disp.item.id) != INT_MAX && i < |t.subs| ==>
              |u.subs| == |t.subs| && u.subs[i] == t.subs[i].(queue := t.subs[i].queue + [t.disp.item])
  {
    hide Reaches, Ids;
    if Count(t.msgs, t.disp.item.id) == INT_MAX {
      ReachesOn(s, t, Delivery(RefFails(i)));
      u := Apply(t, Delivery(RefFails(i)));
    } else {
      ReachesOn(s, t, Delivery(Ref(i)));
      var v := Apply(t, Delivery(Ref(i)));
      ReachesOn(s, v, Delivery(Push));
      u := Apply(v, Delivery(Push));
    }
  }

  lemma FewerLeft(todo: set<nat>, i: nat)
    requires i in todo
    ensures |todo - {i}| < |todo|
  {
  }

  lemma Releases(s: State, t: State) returns (u: State)
    requires Reaches(s, t) && t.disp.Releasing? && !t.disp.stop
    ensures Reaches(s, u) && u.disp.Idle? && Like(t, u, t.mq, t.dispatched)
  {
    hide Reaches;
    ReachesOn(s, t, Loop(Release));
    u := Apply(t, Loop(Release));
  }

  lemma Broadcasts(s: State, t: State) returns (u: State)
    requires Reaches(s, t) && t.disp.Popped? && t.disp.item.Msg?
    ensures Reaches(s, u) && u.disp.Idle? && Like(t, u, t.mq, t.dispatched + [t.disp.item.id])
  {
    hide Reaches, Ids, Registered;
    IdsOne(t.disp.item);
    ReachesOn(s, t, Loop(Lock));
    u := Finishes(s, Apply(t, Loop(Lock)));
  }

  /** Wherever it is, unless it is about to stop, it can come back for the next message. */
  lemma ComesBack(s: State) returns (u: State)
    requires !Halting(s.disp)
    ensures Reaches(s, u) && u.disp.Idle? && Like(s, u, s.mq, s.dispatched + InFlight(s.disp))
  {
    hide Reaches, Ids;
    ReachesItself(s);
    Empty(s.dispatched);
    match s.disp
    case Idle => u := s;
    case Popped(x) => u := Broadcasts(s, s);
    case Broadcasting(_, _) => u := Finishes(s, s);
    case Pushing(_, _, _) =>
      ReachesOn(s, s, Delivery(Push));
      u := Finishes(s, Apply(s, Delivery(Push)));
    case Releasing(_, _) => u := Releases(s, s);
    case Shutting(_, _) =>
    case Stopped =>
  }

  /** It can broadcast everything in front of the first marker. */
  lemma {:induction false} Drains(s: State, t: State, k: nat) returns (u: State)
    requires Reaches(s, t) && t.disp.Idle? && k <= |t.mq| && Marker !in t.mq[..k]
    ensures Reaches(s, u) && u.disp.Idle? && Like(t, u, t.mq[k..], t.dispatched + Ids(t.mq[..k]))
    decreases k
  {
    hide Reaches, Ids;
    if k == 0 {
      u := t;
      NoIds(t.dispatched);
      assert t.mq[..0] == [] && t.mq[0..] == t.mq;
    } else {
      assert t.mq[0] in t.mq[..k];
      ReachesOn(s, t, Loop(Pop));
      var v := Broadcasts(s, Apply(t, Loop(Pop)));
      assert v.mq == t.mq[1..];
      assert v.mq[..k - 1] == t.mq[..k][1..] && v.mq[k - 1..] == t.mq[k..];
      forall x | x in v.mq[..k - 1]
        ensures x in t.mq[..k]
      {
      }
      u := Drains(s, v, k - 1);
      FirstId(t.mq[..k]);
      Assoc(t.dispatched, [t.mq[0].id], Ids(v.mq[..k - 1]));
    }
  }

  lemma FirstId(q: seq<Item>)
    requires q != [] && q[0].Msg?
    ensures Ids(q) == [q[0].id] + Ids(q[1..])
  {
  }

  /** With nothing queued a new message can be created, published and broadcast. */
  lemma Adds(s: State, t: State) returns (u: State)
    requires Reaches(s, t) && t.disp.Idle? && t.mq == []
    ensures Reaches(s, u) && t.msgs.next in u.dispatched
  {
    hide Reaches, Ids, Registered, UnrefMessage;
    var m := t.msgs.next;
    ReachesOn(s, t, Publisher(Create));
    var t1 := Apply(t, Publisher(Create));
    ReachesOn(s, t1, Publisher(Publish(m)));
    var t2 := Apply(t1, Publisher(Publish(m)));
    assert t2.mq == [Msg(m)];
    ReachesOn(s, t2, Loop(Pop));
    u := Broadcasts(s, Apply(t2, Loop(Pop)));
    assert u.dispatched[|t.dispatched|] == m;
  }

  lemma FirstMarker(q: seq<Item>) returns (k: nat)
    ensures k <= |q| && Marker !in q[..k] && (k < |q| ==> q[k] == Marker)
  {
    k := 0;
    while k < |q| && q[k] != Marker
      invariant k <= |q| && Marker !in q[..k]
    {
      k := k + 1;
    }
  }

  /** Where there is no seal, something beyond `ahead` can still be broadcast. */
  lemma Escapes(s: State, ahead: set<nat>) returns (u: State)
    requires !Sealed(s, ahead) && forall m :: m in ahead ==> m < s.msgs.next
    ensures Reaches(s, u) && !Within(u.dispatched, ahead)
  {
    hide Reaches, Ids, InFlight;
    ReachesItself(s);
    u := s;
    if Within(s.dispatched, ahead) {
      u := ComesBack(s);
      if Within(u.dispatched, ahead) {
        SplitWithin(s.dispatched, InFlight(s.disp), ahead);
        var k := FirstMarker(s.mq);
        assert k < |s.mq| ==> SealedAt(s, ahead, k) || !Within(Ids(s.mq[..k]), ahead);
        var before := u.dispatched;
        u := Drains(s, u, k);
        if Within(u.dispatched, ahead) {
          SplitWithin(before, Ids(s.mq[..k]), ahead);
          u := Adds(s, u);
        }
      }
    }
  }

  lemma SplitWithin(a: seq<nat>, b: seq<nat>, ahead: set<nat>)
    ensures Within(a + b, ahead) <==> Within(a, ahead) && Within(b, ahead)
  {
    if Within(a + b, ahead) {
      forall m | m in a
        ensures m in ahead
      {
        assert m in a + b;
      }
      forall m | m in b
        ensures m in ahead
      {
        assert m in a + b;
      }
    }
  }

  /** For every set of existing messages: no smooth run broadcasts anything beyond it exactly when a
      marker seals it. */
  lemma SealedIff(s: State, ahead: set<nat>)
    requires forall m :: m in ahead ==> m < s.msgs.next
    ensures Sealed(s, ahead) <==> forall t :: Reaches(s, t) ==> Within(t.dispatched, ahead)
  {
    hide Sealed, Reaches, Within;
    if Sealed(s, ahead) {
      forall t | Reaches(s, t)
        ensures Within(t.dispatched, ahead)
      {
        StaysWithin(s, t, ahead);
      }
    } else {
      var u := Escapes(s, ahead);
    }
  }

  lemma StaysWithin(s: State, t: State, ahead: set<nat>)
    requires Sealed(s, ahead) && Reaches(s, t)
    ensures Within(t.dispatched, ahead)
  {
    hide Sealed, Legal, After, SmoothRun, Unbroken;
    var run :| Leads(s, run, t);
    SmoothIsUnbroken(s, run, ahead);
    NothingBehindMarker(s, run, ahead);
  }

  function Below(n: nat): (r: set<nat>)
    ensures forall m: nat :: m in r <==> m < n
  {
    if n == 0 then {} else Below(n - 1) + {n - 1}
  }

  /** In every reachable state: a message created later can still be broadcast exactly when no marker is
      queued and the dispatcher is not about to stop. */
  lemma LateMessageIff(run: seq<Action>)
    requires Legal(INIT, run)
    ensures var s := After(INIT, run);
            (exists t, m :: Reaches(s, t) && m in t.dispatched && m >= s.msgs.next) <==>
            !Halting(s.disp) && Marker !in s.mq
  {
    hide Legal, After, Ordered, Counted, Reaches, Ids;
    InvariantAtStart();
    InvariantKept(INIT, run);
    var s := After(INIT, run);
    var all := Below(s.msgs.next);
    AllSealed(s, all);
    SealedIff(s, all);
    if t, m :| Reaches(s, t) && m in t.dispatched && m >= s.msgs.next {
      assert !Within(t.dispatched, all);
    }
    if t :| Reaches(s, t) && !Within(t.dispatched, all) {
      var m :| m in t.dispatched && m !in all;
      assert m >= s.msgs.next;
    }
  }

  lemma AllSealed(s: State, all: set<nat>)
    requires Lined(s) && forall m: nat :: m in all <==> m < s.msgs.next
    ensures Sealed(s, all) <==> Halting(s.disp) || Marker in s.mq
  {
    hide NoDuplicates;
    forall m | m in s.dispatched || m in InFlight(s.disp) || m in Ids(s.mq)
      ensures m in all
    {
      assert m in Line(s);
    }
    if Marker in s.mq {
      var p :| 0 <= p < |s.mq| && s.mq[p] == Marker;
      PrefixWithin(s.mq, p, all);
      assert SealedAt(s, all, p);
    }
  }

  lemma PrefixWithin(q: seq<Item>, p: nat, all: set<nat>)
    requires p <= |q| && Within(Ids(q), all)
    ensures Within(Ids(q[..p]), all)
  {
    hide Ids;
    assert q == q[..p] + q[p..];
    IdsAppend(q[..p], q[p..]);
    SplitWithin(Ids(q[..p]), Ids(q[p..]), all);
  }

  /** A queue that is cleared with the marker in it loses it too, with every lock granted. */
  lemma SecondClearLosesMarker()
    ensures var run := [Publisher(PushMarker), Publisher(ClearQueue), Publisher(Create), Publisher(Publish(0)),
                        Loop(Pop), Loop(Lock)];
            Legal(INIT, run) && After(INIT, run).dispatched == [0]
  {
    hide Legal, After;
    var s1 := Apply(INIT, Publisher(PushMarker));
    var s2 := Apply(s1, Publisher(ClearQueue));
    var s3 := Apply(s2, Publisher(Create));
    var s4 := Apply(s3, Publisher(Publish(0)));
    var s5 := Apply(s4, Loop(Pop));
    var s6 := Apply(s5, Loop(Lock));
    assert s4.mq == [Msg(0)];
    assert s6.dispatched == [0];
    var r5: seq<Action> := [Loop(Lock)];
    var r4 := [Loop(Pop)] + r5;
    var r3 := [Publisher(Publish(0))] + r4;
    var r2 := [Publisher(Create)] + r3;
    var r1 := [Publisher(ClearQueue)] + r2;
    NoRun(s6);
    RunCons(s5, Loop(Lock), []);
    assert [Loop(Lock)] + [] == r5;
    RunCons(s4, Loop(Pop), r5);
    RunCons(s3, Publisher(Publish(0)), r4);
    RunCons(s2, Publisher(Create), r3);
    RunCons(s1, Publisher(ClearQueue), r2);
    RunCons(INIT, Publisher(PushMarker), r1);
    assert [Publisher(PushMarker)] + r1 == [Publisher(PushMarker), Publisher(ClearQueue), Publisher(Create),
                                            Publisher(Publish(0)), Loop(Pop), Loop(Lock)];
  }
}

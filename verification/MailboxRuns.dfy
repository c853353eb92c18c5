/** What holds over every run of the mailbox: exact reference counts, one broadcast order
    that all subscribers see, and a shutdown that is final. */
module MailboxRuns {
  import opened Common
  import opened Mailbox

  // ---------------------------------------------------------------- the order of broadcast

  /** The message the dispatcher has taken out and not broadcast yet. */
  function InFlight(d: Dispatcher): seq<nat>
  {
    if d.Popped? && d.item.Msg? then [d.item.id] else []
  }

  /** Everything that was or will be broadcast, in order. */
  function Line(s: State): seq<nat>
  {
    s.dispatched + InFlight(s.disp) + Ids(s.mq)
  }

  /** Published messages are distinct and leave in the order they came. */
  ghost predicate Lined(s: State)
  {
    && NoDuplicates(Line(s))
    && (forall m :: m in Line(s) ==> m < s.msgs.next)
    && (forall m :: m in s.creating ==> s.creating[m] == 1 && m < s.msgs.next && m !in Line(s))
    && (!s.lost ==> s.published == Line(s))
  }

  lemma {:induction false} IdsAppend(a: seq<Item>, b: seq<Item>)
    ensures Ids(a + b) == Ids(a) + Ids(b)
  {
    if a == [] {
      assert a + b == b;
    } else {
      assert (a + b)[1..] == a[1..] + b;
      IdsAppend(a[1..], b);
      Assoc(if a[0].Msg? then [a[0].id] else [], Ids(a[1..]), Ids(b));
    }
  }

  lemma IdsNothing()
    ensures Ids([]) == []
  {
  }

  lemma IdsOne(x: Item)
    ensures Ids([x]) == if x.Msg? then [x.id] else []
  {
  }

  lemma IdsHead(q: seq<Item>)
    requires q != []
    ensures Ids(q) == Ids([q[0]]) + Ids(q[1..])
  {
    assert q == [q[0]] + q[1..];
    IdsAppend([q[0]], q[1..]);
  }

  /** How the line changes: a message joins it at the end, or some leave it. */
  lemma LineStep(s: State, a: Action)
    requires Enabled(s, a)
    ensures var s' := Apply(s, a);
            match a
            case Publisher(Publish(m)) => Line(s') == Line(s) + [m]
            case Publisher(ClearQueue) => Line(s') == s.dispatched + InFlight(s.disp)
            case Loop(LockFails) => Line(s') == s.dispatched + Ids(s.mq)
            case Loop(IteratorFails) => Line(s') == s.dispatched + Ids(s.mq)
            case _ => Line(s') == Line(s)
  {
    match a
    case Publisher(p) => PublisherLine(s, p);
    case Loop(l) => LoopLine(s, l);
    case Delivery(d) => DeliveryLine(s, d);
    case Client(c) => ClientLine(s, c);
  }

  lemma PublisherLine(s: State, p: PublisherStep)
    requires PublisherCan(s, p)
    ensures var s' := Published(s, p);
            match p
            case Publish(m) => Line(s') == Line(s) + [m]
            case ClearQueue => Line(s') == s.dispatched + InFlight(s.disp)
            case _ => Line(s') == Line(s)
  {
    hide Ids;
    match p
    case Create =>
    case Publish(m) =>
      IdsAppend(s.mq, [Msg(m)]);
      IdsOne(Msg(m));
      Assoc(s.dispatched + InFlight(s.disp), Ids(s.mq), [m]);
    case PublishFails(m) =>
    case ClearQueue =>
      NoIds(s.dispatched + InFlight(s.disp));
    case PushMarker =>
      IdsAppend(s.mq, [Marker]);
      IdsOne(Marker);
      assert Ids(s.mq) + [] == Ids(s.mq);
  }

  lemma NoIds(q: seq<nat>)
    ensures q + Ids([]) == q
  {
  }

  lemma LoopLine(s: State, l: LoopStep)
    requires LoopCan(s, l)
    ensures var s' := Looped(s, l);
            match l
            case LockFails => Line(s') == s.dispatched + Ids(s.mq)
            case IteratorFails => Line(s') == s.dispatched + Ids(s.mq)
            case _ => Line(s') == Line(s)
  {
    hide Ids, Registered;
    match l
    case Pop =>
      IdsHead(s.mq);
      IdsOne(s.mq[0]);
      Assoc(s.dispatched, Ids([s.mq[0]]), Ids(s.mq[1..]));
      Empty(s.dispatched);
    case PopFails =>
    case Lock =>
      IdsOne(s.disp.item);
      Empty(s.dispatched + InFlight(s.disp));
    case LockFails =>
      Empty(s.dispatched);
    case IteratorFails =>
      Empty(s.dispatched);
    case Unlock =>
    case Release =>
  }

  lemma Empty(q: seq<nat>)
    ensures q + [] == q
  {
  }

  lemma DeliveryLine(s: State, d: DeliveryStep)
    requires DeliveryCan(s, d)
    ensures var s' := Delivered(s, d); s'.mq == s.mq && s'.dispatched == s.dispatched && Line(s') == Line(s)
  {
    hide Ids, UnrefMessage, RefMessage;
  }

  lemma ClientLine(s: State, c: ClientStep)
    requires ClientCan(s, c)
    ensures var s' := Served(s, c);
            s'.mq == s.mq && s'.dispatched == s.dispatched && s'.disp == s.disp && Line(s') == Line(s)
  {
    hide Ids, UnrefMessage;
  }

  /** What an action does to the publishers' side. */
  lemma PublishedStep(s: State, a: Action)
    requires Enabled(s, a)
    ensures var s' := Apply(s, a);
            && s'.published == (if a.Publisher? && a.p.Publish? then s.published + [a.p.m] else s.published)
            && (s.lost ==> s'.lost) && (s.cleared ==> s'.cleared)
            && (a.Publisher? && a.p.ClearQueue? && Ids(s.mq) != [] ==> s'.lost)
            && (a.Loop? && (a.l.LockFails? || a.l.IteratorFails?) && s.disp.item.Msg? ==> s'.lost)
            && s'.creating == match a
                              case Publisher(Create) => s.creating + multiset{s.msgs.next}
                              case Publisher(Publish(m)) => s.creating - multiset{m}
                              case Publisher(PublishFails(m)) => s.creating - multiset{m}
                              case _ => s.creating
  {
    hide Ids, Registered, UnrefMessage, RefMessage, NewMessage;
    match a
    case Publisher(p) =>
    case Loop(l) =>
    case Delivery(d) =>
    case Client(c) =>
  }

  lemma LinedStep(s: State, a: Action)
    requires Lined(s) && Enabled(s, a)
    ensures Lined(Apply(s, a))
  {
    hide Ids, Apply, Enabled;
    var s' := Apply(s, a);
    LineStep(s, a);
    PublishedStep(s, a);
    NextStep(s, a);
    var line := s.dispatched + InFlight(s.disp);
    if a.Loop? && (a.l.LockFails? || a.l.IteratorFails?) {
      Without(s.dispatched, InFlight(s.disp), Ids(s.mq));
      MarkerFlies(s, a);
    } else if a == Publisher(ClearQueue) {
      Without(line, Ids(s.mq), []);
      Empty(line);
      Empty(Line(s));
    }
  }

  /** Taking a message out of the middle leaves the rest distinct. */
  lemma Without(a: seq<nat>, b: seq<nat>, c: seq<nat>)
    ensures NoDuplicates(a + b + c) ==> NoDuplicates(a + c)
    ensures forall m :: m in a + c ==> m in a + b + c
  {
    var q, r := a + b + c, a + c;
    assert forall i :: 0 <= i < |r| ==> r[i] == q[if i < |a| then i else i + |b|];
  }

  lemma MarkerFlies(s: State, a: Action)
    requires Enabled(s, a) && a.Loop? && (a.l.LockFails? || a.l.IteratorFails?)
    ensures s.disp.item.Marker? ==> Line(s) == s.dispatched + Ids(s.mq)
  {
    Empty(s.dispatched);
  }

  lemma NextStep(s: State, a: Action)
    requires Enabled(s, a)
    ensures Apply(s, a).msgs.next == if a == Publisher(Create) then s.msgs.next + 1 else s.msgs.next
    ensures a.Publisher? && a.p.Publish? ==> a.p.m in s.creating
  {
    hide Apply;
    MessagesStep(s, a);
  }

  // ---------------------------------------------------------------- what subscribers see

  /** The dispatcher still has to deal with subscriber `i` in the current broadcast. */
  predicate Visiting(d: Dispatcher, i: nat)
  {
    d.Locked() && (i in d.todo || (d.Pushing? && d.sub == i))
  }

  /** The current broadcast is of a message. */
  predicate Handing(d: Dispatcher)
  {
    d.Pushing? || (d.Broadcasting? && d.item.Msg?)
  }

  /** Up to where in the order of broadcast subscriber `i` has been served. */
  function End(s: State, i: nat): int
    requires i < |s.subs|
  {
    if !s.subs[i].registered then s.subs[i].to
    else if Handing(s.disp) && Visiting(s.disp, i) then |s.dispatched| - 1
    else |s.dispatched|
  }

  /** What subscriber `i` should have got. */
  function Share(s: State, i: nat): seq<nat>
    requires i < |s.subs| && 0 <= s.subs[i].from <= End(s, i) <= |s.dispatched|
  {
    s.dispatched[s.subs[i].from..End(s, i)]
  }

  /** What a subscriber took, and what waits for it. */
  ghost predicate Inside(sub: Subscriber, share: seq<nat>)
  {
    (forall m :: m in sub.popped ==> m in share) && forall m :: m in Ids(sub.queue) ==> m in share
  }

  ghost predicate SubscriberOk(s: State, i: nat)
    requires i < |s.subs|
  {
    var sub := s.subs[i];
    && sub.from <= End(s, i) <= |s.dispatched|
    && (sub.registered && !sub.alive ==> sub.tookMarker || s.disp.Stopped?)
    && (sub.tookMarker ==> sub.shut && sub.queue == [])
    && (sub.shut ==> s.disp.Final() && (sub.queue == [] || sub.queue == [Marker]))
    && (sub.shut && sub.alive && !sub.unmarked && !sub.tookMarker ==>
          sub.queue == [Marker] || (s.disp.Shutting? && s.disp.sub == i))
    && (!sub.shut ==> Marker !in sub.queue)
    && (Visiting(s.disp, i) ==> sub.registered && sub.alive && !sub.shut)
    && (s.disp.Shutting? && s.disp.sub == i ==> sub.shut && sub.queue == [] && !sub.tookMarker)
    && (s.disp.Locked() && s.disp.Final() && sub.registered ==> i in s.disp.todo || sub.shut)
    && Inside(sub, Share(s, i))
    && (!sub.missed ==> sub.popped <= Share(s, i))
    && (!sub.missed && sub.alive && !sub.shut ==> sub.popped + Ids(sub.queue) == Share(s, i))
  }

  ghost predicate DispatcherOk(s: State)
  {
    && (s.disp.Locked() ==> forall i :: i in s.disp.todo ==> i < |s.subs|)
    && (s.disp.Pushing? || s.disp.Shutting? ==> s.disp.sub < |s.subs| && s.disp.sub !in s.disp.todo)
    && (Handing(s.disp) ==> s.dispatched != [])
    && (s.disp.Pushing? ==> s.dispatched[|s.dispatched| - 1] == s.disp.id)
    && (s.disp.Broadcasting? && s.disp.item.Msg? ==> s.dispatched[|s.dispatched| - 1] == s.disp.item.id)
  }

  ghost predicate Ordered(s: State)
  {
    DispatcherOk(s) && forall i :: 0 <= i < |s.subs| ==> SubscriberOk(s, i)
  }

  lemma PublisherOrdered(s: State, p: PublisherStep)
    requires Ordered(s) && PublisherCan(s, p)
    ensures Ordered(Published(s, p))
  {
    hide Ids, UnrefMessage, NewMessage, SubscriberOk;
    var s' := Published(s, p);
    forall i | 0 <= i < |s'.subs|
      ensures SubscriberOk(s', i)
    {
      StaysOk(s, s', i);
    }
  }

  /** Nothing that concerns subscriber `i` has changed. */
  ghost predicate Unaffected(s: State, s': State, i: nat)
  {
    && i < |s.subs| && i < |s'.subs| && s'.subs[i] == s.subs[i]
    && s'.dispatched == s.dispatched
    && Visiting(s'.disp, i) == Visiting(s.disp, i)
    && Handing(s'.disp) == Handing(s.disp)
    && (s.disp.Final() ==> s'.disp.Final())
    && (s'.disp.Locked() && s'.disp.Final() ==> s.disp.Locked() && s.disp.Final())
    && (s'.disp.Shutting? && s'.disp.sub == i <==> s.disp.Shutting? && s.disp.sub == i)
    && (s.disp.Stopped? ==> s'.disp.Stopped?)
  }

  lemma StaysOk(s: State, s': State, i: nat)
    requires Unaffected(s, s', i) && SubscriberOk(s, i)
    ensures SubscriberOk(s', i)
  {
    hide Ids;
  }

  lemma LoopOrdered(s: State, l: LoopStep)
    requires Ordered(s) && LoopCan(s, l)
    ensures Ordered(Looped(s, l))
  {
    hide Ids, UnrefMessage, SubscriberOk;
    var s' := Looped(s, l);
    if l == Lock {
      IdsOne(s.disp.item);
    }
    forall i | 0 <= i < |s'.subs|
      ensures SubscriberOk(s', i)
    {
      assert SubscriberOk(s, i);
      if l == Lock {
        LockSubscriber(s, i);
      } else if l == Unlock {
        UnlockSubscriber(s, i);
      } else {
        StaysOk(s, s', i);
      }
    }
  }

  lemma LockSubscriber(s: State, i: nat)
    requires LoopCan(s, Lock) && i < |s.subs| && SubscriberOk(s, i)
    ensures SubscriberOk(Looped(s, Lock), i)
  {
    hide Ids;
    var s' := Looped(s, Lock);
    IdsOne(s.disp.item);
    assert s'.dispatched[..|s.dispatched|] == s.dispatched;
    assert Share(s', i) == Share(s, i);
  }

  lemma UnlockSubscriber(s: State, i: nat)
    requires LoopCan(s, Unlock) && i < |s.subs| && SubscriberOk(s, i)
    ensures SubscriberOk(Looped(s, Unlock), i)
  {
    hide Ids;
  }

  /** The subscriber a delivery is for. */
  function Target(s: State, d: DeliveryStep): nat
    requires DeliveryCan(s, d)
  {
    match d
    case Ref(i) => i
    case RefFails(i) => i
    case ShutClear(i) => i
    case _ => s.disp.sub
  }

  lemma DeliveryOrdered(s: State, d: DeliveryStep)
    requires Ordered(s) && DeliveryCan(s, d)
    ensures Ordered(Delivered(s, d))
  {
    hide Ids, UnrefMessage, RefMessage, SubscriberOk;
    var s' := Delivered(s, d);
    DeliveryLine(s, d);
    forall i | 0 <= i < |s'.subs|
      ensures SubscriberOk(s', i)
    {
      assert SubscriberOk(s, i);
      if i != Target(s, d) {
        StaysOk(s, s', i);
      } else if d.Push? {
        PushedSubscriber(s);
      } else {
        TargetSubscriber(s, d);
      }
    }
  }

  lemma TargetSubscriber(s: State, d: DeliveryStep)
    requires DispatcherOk(s) && DeliveryCan(s, d) && !d.Push?
    requires SubscriberOk(s, Target(s, d))
    ensures SubscriberOk(Delivered(s, d), Target(s, d))
  {
    hide Ids, Delivered, SubscriberOk, DispatcherOk;
    match d
    case Ref(j) => RefSubscriber(s, j);
    case RefFails(j) => MissedSubscriber(s, d, j);
    case PushFails => MissedSubscriber(s, d, s.disp.sub);
    case ShutClear(j) => ClearedSubscriber(s, j);
    case ShutPush => MarkedSubscriber(s, d);
    case ShutPushFails => MarkedSubscriber(s, d);
  }

  lemma RefSubscriber(s: State, j: nat)
    requires DispatcherOk(s) && DeliveryCan(s, Ref(j)) && SubscriberOk(s, j)
    ensures SubscriberOk(Delivered(s, Ref(j)), j)
  {
    hide Ids, UnrefMessage, RefMessage;
  }

  /** A push that fails: the subscriber is served up to this message, which it misses. */
  lemma MissedSubscriber(s: State, d: DeliveryStep, j: nat)
    requires DispatcherOk(s) && DeliveryCan(s, d) && (d.RefFails? || d.PushFails?) && j == Target(s, d)
    requires SubscriberOk(s, j)
    ensures SubscriberOk(Delivered(s, d), j)
  {
    hide Ids, UnrefMessage, RefMessage;
    var s' := Delivered(s, d);
    assert Share(s', j)[..|Share(s, j)|] == Share(s, j);
    assert forall m :: m in Share(s, j) ==> m in Share(s', j);
  }

  lemma ClearedSubscriber(s: State, j: nat)
    requires DispatcherOk(s) && DeliveryCan(s, ShutClear(j)) && SubscriberOk(s, j)
    ensures SubscriberOk(Delivered(s, ShutClear(j)), j)
  {
    hide Ids, UnrefMessage, RefMessage;
    IdsNothing();
  }

  lemma MarkedSubscriber(s: State, d: DeliveryStep)
    requires DispatcherOk(s) && DeliveryCan(s, d) && (d.ShutPush? || d.ShutPushFails?) && SubscriberOk(s, s.disp.sub)
    ensures SubscriberOk(Delivered(s, d), s.disp.sub)
  {
    hide Ids, UnrefMessage, RefMessage;
    assert [] + [Marker] == [Marker];
    IdsOne(Marker);
  }

  lemma PushedSubscriber(s: State)
    requires Ordered(s) && s.disp.Pushing?
    ensures SubscriberOk(Delivered(s, Push), s.disp.sub)
  {
    hide Ids;
    var i, m := s.disp.sub, s.disp.id;
    var s' := Delivered(s, Push);
    assert SubscriberOk(s, i);
    var sub := s.subs[i];
    IdsAppend(sub.queue, [Msg(m)]);
    IdsOne(Msg(m));
    assert Share(s', i) == Share(s, i) + [m];
    Assoc(sub.popped, Ids(sub.queue), [m]);
  }

  lemma ClientOrdered(s: State, c: ClientStep)
    requires Ordered(s) && ClientCan(s, c)
    ensures Ordered(Served(s, c))
  {
    hide Ids, UnrefMessage, SubscriberOk;
    var s' := Served(s, c);
    ClientLine(s, c);
    forall i | 0 <= i < |s'.subs|
      ensures SubscriberOk(s', i)
    {
      if i == |s.subs| {
        NewSubscriber(s);
      } else {
        assert SubscriberOk(s, i);
        match c
        case Unsubscribe(j) => if i == j { LeavingSubscriber(s, i); } else { StaysOk(s, s', i); }
        case Destroy(j) => if i == j { DestroyedSubscriber(s, i); } else { StaysOk(s, s', i); }
        case Take(j) => if i == j { TakingSubscriber(s, i); } else { StaysOk(s, s', i); }
        case Subscribe => StaysOk(s, s', i);
        case Done(m) => StaysOk(s, s', i);
      }
    }
  }

  lemma NewSubscriber(s: State)
    requires ClientCan(s, Subscribe)
    ensures SubscriberOk(Served(s, Subscribe), |s.subs|)
  {
  }

  lemma LeavingSubscriber(s: State, i: nat)
    requires ClientCan(s, Unsubscribe(i)) && SubscriberOk(s, i)
    ensures SubscriberOk(Served(s, Unsubscribe(i)), i)
  {
    hide Ids;
  }

  lemma DestroyedSubscriber(s: State, i: nat)
    requires ClientCan(s, Destroy(i)) && SubscriberOk(s, i)
    ensures SubscriberOk(Served(s, Destroy(i)), i)
  {
    hide Ids;
    IdsNothing();
  }

  lemma TakingSubscriber(s: State, i: nat)
    requires DispatcherOk(s) && ClientCan(s, Take(i)) && SubscriberOk(s, i)
    ensures SubscriberOk(Served(s, Take(i)), i)
  {
    hide Ids;
    var s', sub := Served(s, Take(i)), s.subs[i];
    IdsHead(sub.queue);
    IdsOne(sub.queue[0]);
    Assoc(sub.popped, Ids([sub.queue[0]]), Ids(sub.queue[1..]));
    assert Share(s', i) == Share(s, i);
    assert [] + Ids(sub.queue[1..]) == Ids(sub.queue[1..]) && sub.popped + [] == sub.popped;
  }

  lemma OrderedStep(s: State, a: Action)
    requires Ordered(s) && Enabled(s, a)
    ensures Ordered(Apply(s, a))
  {
    hide Ordered, Published, Looped, Delivered, Served;
    match a
    case Publisher(p) => PublisherOrdered(s, p);
    case Loop(l) => LoopOrdered(s, l);
    case Delivery(d) => DeliveryOrdered(s, d);
    case Client(c) => ClientOrdered(s, c);
  }

  // ---------------------------------------------------------------- runs

  ghost predicate Legal(s: State, run: seq<Action>)
    decreases |run|
  {
    run == [] || (Enabled(s, run[0]) && Legal(Apply(s, run[0]), run[1..]))
  }

  ghost function After(s: State, run: seq<Action>): State
    requires Legal(s, run)
    decreases |run|
  {
    if run == [] then s else After(Apply(s, run[0]), run[1..])
  }

  ghost predicate Invariant(s: State)
  {
    Ordered(s) && Lined(s) && (!s.cleared ==> Counted(s))
  }

  lemma {:induction false} InvariantKept(s: State, run: seq<Action>)
    requires Invariant(s) && Legal(s, run)
    ensures Invariant(After(s, run))
    decreases |run|
  {
    hide Ordered, Lined, Counted, Enabled, Apply;
    if run != [] {
      var a := run[0];
      OrderedStep(s, a);
      LinedStep(s, a);
      PublishedStep(s, a);
      if !Apply(s, a).cleared {
        OrderedIsShaped(s);
        CountedStep(s, a);
      }
      InvariantKept(Apply(s, a), run[1..]);
    }
  }

  lemma OrderedIsShaped(s: State)
    requires Ordered(s)
    ensures Shaped(s)
  {
  }

  lemma InvariantAtStart()
    ensures Invariant(INIT)
  {
  }

  /** Over every run in which no queue was cleared: a message's count is the number of
      references to it; every queue, the dispatcher and every holder refer only to
      messages that are not freed; and a payload was destroyed exactly when the last
      reference had gone, and then once. */
  lemma CountsAreExact(run: seq<Action>, m: nat)
    requires Legal(INIT, run) && !After(INIT, run).cleared
    ensures var s := After(INIT, run);
            && References(s, m) == Count(s.msgs, m)
            && (References(s, m) > 0 ==> m in s.msgs.counts && m !in s.msgs.destroyed)
            && (m < s.msgs.next && References(s, m) == 0 <==> m in s.msgs.destroyed)
            && NoDuplicates(s.msgs.destroyed)
  {
    hide References, Legal, After;
    InvariantAtStart();
    InvariantKept(INIT, run);
  }

  /** ... and no action of such a run releases a message that is already freed. */
  lemma NeverUnderflows(run: seq<Action>, a: Action)
    requires Legal(INIT, run) && !After(INIT, run).cleared && Enabled(After(INIT, run), a)
    ensures var s := After(INIT, run);
            GivesUp(s, a) >= 0 ==> Count(s.msgs, GivesUp(s, a)) > 0
  {
    hide Legal, After, Counted, Enabled;
    InvariantAtStart();
    InvariantKept(INIT, run);
    NoUnderflow(After(INIT, run), a);
  }

  /** Over every run: the messages broadcast are distinct, and unless one was dropped they
      are the published ones in the order of publication. A subscriber none of whose
      pushes failed has taken a prefix of the stretch that was broadcast while it was
      subscribed; until it is shut down or destroyed, what it took and what waits in its
      queue are exactly that stretch. */
  lemma BroadcastOrder(run: seq<Action>, i: nat)
    requires Legal(INIT, run) && i < |After(INIT, run).subs|
    ensures var s := After(INIT, run);
            var sub := s.subs[i];
            && NoDuplicates(s.dispatched)
            && (!s.lost ==> s.dispatched <= s.published)
            && 0 <= sub.from <= End(s, i) <= |s.dispatched|
            && (!sub.missed ==> sub.popped <= s.dispatched[sub.from..End(s, i)])
            && (!sub.missed && sub.alive && !sub.shut ==>
                  sub.popped + Ids(sub.queue) == s.dispatched[sub.from..End(s, i)])
  {
    hide Legal, After, Counted;
    InvariantAtStart();
    InvariantKept(INIT, run);
    var s := After(INIT, run);
    assert SubscriberOk(s, i);
    FrontDistinct(s);
  }

  lemma FrontDistinct(s: State)
    requires Lined(s)
    ensures NoDuplicates(s.dispatched) && s.dispatched <= Line(s)
  {
    hide Ids;
    var q := s.dispatched;
    assert forall i :: 0 <= i < |q| ==> Line(s)[i] == q[i];
  }

  /** Two subscribers agree on everything broadcast while both were subscribed. */
  lemma SubscribersAgree(run: seq<Action>, i: nat, j: nat, x: nat)
    requires Legal(INIT, run)
    requires var s := After(INIT, run);
             && i < |s.subs| && j < |s.subs|
             && !s.subs[i].missed && s.subs[i].alive && !s.subs[i].shut
             && !s.subs[j].missed && s.subs[j].alive && !s.subs[j].shut
             && s.subs[i].from <= x < End(s, i) && s.subs[j].from <= x < End(s, j)
    ensures var s := After(INIT, run);
            var seenByI, seenByJ := s.subs[i].popped + Ids(s.subs[i].queue), s.subs[j].popped + Ids(s.subs[j].queue);
            && x - s.subs[i].from < |seenByI| && x - s.subs[j].from < |seenByJ|
            && seenByI[x - s.subs[i].from] == seenByJ[x - s.subs[j].from]
  {
    hide Legal, After, Ids;
    BroadcastOrder(run, i);
    BroadcastOrder(run, j);
  }
}

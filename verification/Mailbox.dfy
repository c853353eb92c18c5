/** The mailbox: publishers, one dispatcher thread, subscribers and their consumers share
    reference-counted messages. Every operation on a lock, a queue or a count is one
    action; a run is any interleaving of them.

    Messages and subscribers are named by the order in which they were created. */
module Mailbox {

  const INT_MAX: nat := 0x7fff_ffff

  /** An entry of a queue; NULL is the shutdown marker. */
  datatype Item = Marker | Msg(id: nat)

  datatype Subscriber = Subscriber(
    registered: bool,     // in `mq->subscribers`
    alive: bool,          // not destroyed yet
    queue: seq<Item>,
    popped: seq<nat>,     // history: the messages its consumer took
    from: nat,            // history: how much had been dispatched when it subscribed
    to: nat,              // history: ... and when it unsubscribed
    missed: bool,         // history: a push to it failed
    shut: bool,           // history: its queue was cleared for shutdown
    unmarked: bool,       // history: ... but the push of the marker failed
    tookMarker: bool      // history: its consumer took the marker
  )

  /** Where `message_queue_thread` is. `Broadcasting`, `Pushing` and `Shutting` hold the
      read lock; `todo` are the subscribers the iterator has yet to visit. */
  datatype Dispatcher =
    | Idle
    | Popped(item: Item)
    | Broadcasting(item: Item, todo: set<nat>)
    | Pushing(id: nat, todo: set<nat>, sub: nat)
    | Shutting(todo: set<nat>, sub: nat)
    | Releasing(id: nat, stop: bool)
    | Stopped
  {
    predicate Locked() { Broadcasting? || Pushing? || Shutting? }

    /** It is handing on the shutdown marker, or done. */
    predicate Final() { Stopped? || Shutting? || (Broadcasting? && item.Marker?) }
  }

  /** All messages ever created. */
  datatype Messages = Messages(
    counts: map<nat, nat>,      // `ref_count` of every message that is not freed
    destroyed: seq<nat>,        // history: whose payload was destroyed, in order
    next: nat                   // how many messages were created
  )

  datatype State = State(
    msgs: Messages,
    creating: multiset<nat>,    // references held by publishers
    held: multiset<nat>,        // references held by consumers
    mq: seq<Item>,
    disp: Dispatcher,
    subs: seq<Subscriber>,
    published: seq<nat>,        // history: in the order they entered the queue
    dispatched: seq<nat>,       // history: in the order they were broadcast
    lost: bool,                 // history: a published message was dropped unbroadcast
    cleared: bool               // history: `blocking_queue_clear` dropped messages
  )

  const INIT := State(Messages(map[], [], 0), multiset{}, multiset{}, [], Idle, [], [], [], false, false)

  datatype PublisherStep =
    | Create
    | Publish(m: nat)
    | PublishFails(m: nat)
    | ClearQueue
    | PushMarker

  datatype LoopStep =
    | Pop
    | PopFails
    | Lock
    | LockFails
    | IteratorFails
    | Unlock
    | Release

  datatype DeliveryStep =
    | Ref(sub: nat)
    | RefFails(sub: nat)
    | Push
    | PushFails
    | ShutClear(sub: nat)
    | ShutPush
    | ShutPushFails

  datatype ClientStep =
    | Subscribe
    | Unsubscribe(sub: nat)
    | Destroy(sub: nat)
    | Take(sub: nat)
    | Done(m: nat)

  datatype Action = Publisher(p: PublisherStep) | Loop(l: LoopStep) | Delivery(d: DeliveryStep) | Client(c: ClientStep)

  // ---------------------------------------------------------------- messages

  /** `mailbox_message_create`. */
  function NewMessage(x: Messages): Messages
  {
    x.(counts := x.counts[x.next := 1], next := x.next + 1)
  }

  function Count(x: Messages, m: nat): nat
  {
    if m in x.counts then x.counts[m] else 0
  }

  /** `mailbox_message_ref`. */
  function RefMessage(x: Messages, m: nat): Messages
  {
    x.(counts := x.counts[m := Count(x, m) + 1])
  }

  /** `mailbox_message_unref`: the last reference destroys the payload and frees the message. */
  function UnrefMessage(x: Messages, m: nat): Messages
  {
    if Count(x, m) == 0 then x
    else if x.counts[m] == 1 then x.(counts := x.counts - {m}, destroyed := x.destroyed + [m])
    else x.(counts := x.counts[m := x.counts[m] - 1])
  }

  function Unref(s: State, m: nat): State
  {
    s.(msgs := UnrefMessage(s.msgs, m))
  }

  /** The messages in a queue. */
  function Ids(q: seq<Item>): seq<nat>
  {
    if q == [] then [] else (if q[0].Msg? then [q[0].id] else []) + Ids(q[1..])
  }

  function Registered(subs: seq<Subscriber>): set<nat>
  {
    set i | 0 <= i < |subs| && subs[i].registered
  }

  // ---------------------------------------------------------------- actions

  predicate PublisherCan(s: State, p: PublisherStep)
  {
    match p
    case Publish(m) => m in s.creating
    case PublishFails(m) => m in s.creating
    case _ => true
  }

  /** `mailbox_publish` and `message_queue_shutdown`, queue operation by queue operation. */
  function Published(s: State, p: PublisherStep): State
  {
    match p
    case Create =>
      s.(msgs := NewMessage(s.msgs), creating := s.creating + multiset{s.msgs.next})
    case Publish(m) =>
      s.(creating := s.creating - multiset{m}, mq := s.mq + [Msg(m)], published := s.published + [m])
    case PublishFails(m) =>
      Unref(s.(creating := s.creating - multiset{m}), m)
    case ClearQueue =>
      s.(mq := [], lost := s.lost || Ids(s.mq) != [], cleared := s.cleared || Ids(s.mq) != [])
    case PushMarker =>
      s.(mq := s.mq + [Marker])
  }

  predicate LoopCan(s: State, l: LoopStep)
  {
    match l
    case Pop => s.disp.Idle? && s.mq != []
    case PopFails => s.disp.Idle?
    case Lock => s.disp.Popped?
    case LockFails => s.disp.Popped?
    case IteratorFails => s.disp.Popped?
    case Unlock => s.disp.Broadcasting? && s.disp.todo == {}
    case Release => s.disp.Releasing?
  }

  /** The loop of `message_queue_thread`, but for what it does while it holds the lock. */
  function Looped(s: State, l: LoopStep): State
    requires LoopCan(s, l)
  {
    match l
    case Pop =>
      s.(mq := s.mq[1..], disp := Popped(s.mq[0]))
    case PopFails =>
      s.(disp := Stopped)
    case Lock =>
      s.(disp := Broadcasting(s.disp.item, Registered(s.subs)), dispatched := s.dispatched + Ids([s.disp.item]))
    case LockFails =>
      if s.disp.item.Marker? then s.(disp := Idle)
      else s.(disp := Releasing(s.disp.item.id, false), lost := true)
    case IteratorFails =>
      if s.disp.item.Marker? then s.(disp := Stopped)
      else s.(disp := Releasing(s.disp.item.id, true), lost := true)
    case Unlock =>
      if s.disp.item.Marker? then s.(disp := Stopped) else s.(disp := Releasing(s.disp.item.id, false))
    case Release =>
      Unref(s.(disp := if s.disp.stop then Stopped else Idle), s.disp.id)
  }

  function Update(s: State, i: nat, sub: Subscriber): State
  {
    if i < |s.subs| then s.(subs := s.subs[i := sub]) else s
  }

  /** The subscriber with number `i`; the dispatcher only meets numbers that exist. */
  function At(s: State, i: nat): Subscriber
  {
    if i < |s.subs| then s.subs[i] else Subscriber(false, false, [], [], 0, 0, false, false, false, false)
  }

  function Queued(s: State, i: nat, x: Item): State
  {
    Update(s, i, At(s, i).(queue := At(s, i).queue + [x]))
  }

  function Missed(s: State, i: nat): State
  {
    Update(s, i, At(s, i).(missed := true))
  }

  function Unmarked(s: State, i: nat): State
  {
    Update(s, i, At(s, i).(unmarked := true))
  }

  predicate DeliveryCan(s: State, d: DeliveryStep)
  {
    match d
    case Ref(i) =>
      && s.disp.Broadcasting? && s.disp.item.Msg? && i in s.disp.todo
      && Count(s.msgs, s.disp.item.id) != INT_MAX
    case RefFails(i) => s.disp.Broadcasting? && s.disp.item.Msg? && i in s.disp.todo
    case Push => s.disp.Pushing?
    case PushFails => s.disp.Pushing?
    case ShutClear(i) => s.disp.Broadcasting? && s.disp.item.Marker? && i in s.disp.todo
    case ShutPush => s.disp.Shutting?
    case ShutPushFails => s.disp.Shutting?
  }

  /** `message_subscriber_push` and `message_subscriber_shutdown`, under the read lock. */
  function Delivered(s: State, d: DeliveryStep): State
    requires DeliveryCan(s, d)
  {
    match d
    case Ref(i) =>
      var m := s.disp.item.id;
      s.(disp := Pushing(m, s.disp.todo - {i}, i), msgs := RefMessage(s.msgs, m))
    case RefFails(i) =>
      Missed(s.(disp := Broadcasting(s.disp.item, s.disp.todo - {i})), i)
    case Push =>
      Queued(s.(disp := Broadcasting(Msg(s.disp.id), s.disp.todo)), s.disp.sub, Msg(s.disp.id))
    case PushFails =>
      Missed(Unref(s.(disp := Broadcasting(Msg(s.disp.id), s.disp.todo)), s.disp.id), s.disp.sub)
    case ShutClear(i) =>
      Emptied(s.(disp := Shutting(s.disp.todo - {i}, i)), i, At(s, i).(shut := true))
    case ShutPush =>
      Queued(s.(disp := Broadcasting(Marker, s.disp.todo)), s.disp.sub, Marker)
    case ShutPushFails =>
      Unmarked(s.(disp := Broadcasting(Marker, s.disp.todo)), s.disp.sub)
  }

  /** `blocking_queue_clear` on a subscriber's queue. */
  function Emptied(s: State, i: nat, sub: Subscriber): State
  {
    Update(s, i, sub.(queue := [])).(cleared := s.cleared || Ids(At(s, i).queue) != [])
  }

  predicate ClientCan(s: State, c: ClientStep)
  {
    match c
    case Subscribe => !s.disp.Locked()
    case Unsubscribe(i) => !s.disp.Locked() && i < |s.subs| && s.subs[i].registered
    case Destroy(i) =>
      && i < |s.subs| && s.subs[i].alive
      && (!s.subs[i].registered || s.subs[i].tookMarker || s.disp.Stopped?)
    case Take(i) => i < |s.subs| && s.subs[i].alive && s.subs[i].queue != []
    case Done(m) => m in s.held
  }

  function Served(s: State, c: ClientStep): State
    requires ClientCan(s, c)
  {
    match c
    case Subscribe =>
      s.(subs := s.subs + [Subscriber(true, true, [], [], |s.dispatched|, 0, false, false, false, false)])
    case Unsubscribe(i) =>
      Update(s, i, s.subs[i].(registered := false, to := |s.dispatched|))
    case Destroy(i) =>
      Emptied(s, i, s.subs[i].(alive := false))
    case Take(i) =>
      var x, sub := s.subs[i].queue[0], s.subs[i].(queue := s.subs[i].queue[1..]);
      if x.Marker? then Update(s, i, sub.(tookMarker := true))
      else Update(s.(held := s.held + multiset{x.id}), i, sub.(popped := sub.popped + [x.id]))
    case Done(m) =>
      Unref(s.(held := s.held - multiset{m}), m)
  }

  predicate Enabled(s: State, a: Action)
  {
    match a
    case Publisher(p) => PublisherCan(s, p)
    case Loop(l) => LoopCan(s, l)
    case Delivery(d) => DeliveryCan(s, d)
    case Client(c) => ClientCan(s, c)
  }

  function Apply(s: State, a: Action): State
    requires Enabled(s, a)
  {
    match a
    case Publisher(p) => Published(s, p)
    case Loop(l) => Looped(s, l)
    case Delivery(d) => Delivered(s, d)
    case Client(c) => Served(s, c)
  }

  // ---------------------------------------------------------------- who holds references

  function Occurs(q: seq<Item>, m: nat): nat
  {
    if q == [] then 0 else (if q[0] == Msg(m) then 1 else 0) + Occurs(q[1..], m)
  }

  function QueuedFor(subs: seq<Subscriber>, m: nat): nat
  {
    if subs == [] then 0 else Occurs(subs[0].queue, m) + QueuedFor(subs[1..], m)
  }

  function DispatcherHolds(d: Dispatcher, m: nat): nat
  {
    match d
    case Popped(x) => if x == Msg(m) then 1 else 0
    case Broadcasting(x, _) => if x == Msg(m) then 1 else 0
    case Pushing(x, _, _) => if x == m then 2 else 0
    case Releasing(x, _) => if x == m then 1 else 0
    case _ => 0
  }

  /** Every reference to a message: with publishers, with consumers, in the queue, with
      the dispatcher, in the subscribers' queues. */
  function References(s: State, m: nat): nat
  {
    s.creating[m] + s.held[m] + Occurs(s.mq, m) + DispatcherHolds(s.disp, m) + QueuedFor(s.subs, m)
  }

  ghost predicate NoDuplicates(q: seq<nat>)
  {
    forall i, j :: 0 <= i < j < |q| ==> q[i] != q[j]
  }

  /** A message's count is the number of references to it. */
  ghost predicate Exact(s: State)
  {
    forall m :: References(s, m) == Count(s.msgs, m)
  }

  /** Freed messages are those whose payload was destroyed, each once. */
  ghost predicate Freed(x: Messages)
  {
    && (forall m :: m in x.counts ==> 0 < x.counts[m] && m < x.next)
    && (forall m :: 0 <= m < x.next ==> (m in x.destroyed <==> m !in x.counts))
    && (forall m :: m in x.destroyed ==> m < x.next)
    && NoDuplicates(x.destroyed)
  }

  ghost predicate Counted(s: State)
  {
    Exact(s) && Freed(s.msgs)
  }

  lemma {:induction false} OccursAppend(a: seq<Item>, b: seq<Item>, m: nat)
    ensures Occurs(a + b, m) == Occurs(a, m) + Occurs(b, m)
  {
    if a == [] {
      assert a + b == b;
    } else {
      assert (a + b)[1..] == a[1..] + b;
      OccursAppend(a[1..], b, m);
    }
  }

  lemma OccursOne(x: Item, m: nat)
    ensures Occurs([x], m) == if x == Msg(m) then 1 else 0
  {
  }

  lemma {:induction false} OccursNone(q: seq<Item>, m: nat)
    requires Ids(q) == []
    ensures Occurs(q, m) == 0
  {
    if q != [] {
      OccursNone(q[1..], m);
    }
  }

  lemma NothingQueued(m: nat)
    ensures Occurs([], m) == 0
  {
  }

  lemma {:induction false} QueuedUpdate(subs: seq<Subscriber>, i: nat, sub: Subscriber, m: nat)
    requires i < |subs|
    ensures QueuedFor(subs[i := sub], m) == QueuedFor(subs, m) - Occurs(subs[i].queue, m) + Occurs(sub.queue, m)
  {
    hide Occurs;
    if i == 0 {
      assert subs[0 := sub][1..] == subs[1..];
    } else {
      assert subs[i := sub][1..] == subs[1..][i - 1 := sub];
      QueuedUpdate(subs[1..], i - 1, sub, m);
    }
  }

  lemma {:induction false} QueuedAppend(subs: seq<Subscriber>, sub: Subscriber, m: nat)
    ensures QueuedFor(subs + [sub], m) == QueuedFor(subs, m) + Occurs(sub.queue, m)
  {
    hide Occurs;
    if subs == [] {
      assert subs + [sub] == [sub] && [sub][1..] == [];
    } else {
      assert (subs + [sub])[1..] == subs[1..] + [sub];
      QueuedAppend(subs[1..], sub, m);
    }
  }

  /** The subscribers the dispatcher has to do with exist. */
  ghost predicate Shaped(s: State)
  {
    && (s.disp.Locked() ==> forall i :: i in s.disp.todo ==> i < |s.subs|)
    && (s.disp.Pushing? || s.disp.Shutting? ==> s.disp.sub < |s.subs|)
  }

  /** The message an action gives up a reference to, if it does. */
  function GivesUp(s: State, a: Action): (r: int)
    requires Enabled(s, a)
  {
    match a
    case Publisher(PublishFails(m)) => m
    case Delivery(PushFails) => s.disp.id
    case Loop(Release) => s.disp.id
    case Client(Done(m)) => m
    case _ => -1
  }

  /** The message an action adds a reference to, if it does. */
  function TakesOn(s: State, a: Action): (r: int)
    requires Enabled(s, a)
  {
    match a
    case Publisher(Create) => s.msgs.next
    case Delivery(Ref(i)) => s.disp.item.id
    case _ => -1
  }

  ghost predicate Balanced(s: State, a: Action, s': State, m: nat)
    requires Enabled(s, a)
  {
    References(s', m) + (if GivesUp(s, a) == m then 1 else 0)
    == References(s, m) + (if TakesOn(s, a) == m then 1 else 0)
  }

  lemma PublisherReferences(s: State, p: PublisherStep, m: nat)
    requires PublisherCan(s, p) && !Published(s, p).cleared
    ensures Balanced(s, Publisher(p), Published(s, p), m)
  {
    hide Occurs, QueuedFor, Ids;
    match p
    case Create =>
    case Publish(x) =>
      OccursAppend(s.mq, [Msg(x)], m);
      OccursOne(Msg(x), m);
    case PublishFails(x) =>
    case ClearQueue =>
      OccursNone(s.mq, m);
      NothingQueued(m);
    case PushMarker =>
      OccursAppend(s.mq, [Marker], m);
      OccursOne(Marker, m);
  }

  lemma QueuedReferences(s: State, i: nat, x: Item, m: nat)
    requires i < |s.subs|
    ensures References(Queued(s, i, x), m) == References(s, m) + if x == Msg(m) then 1 else 0
  {
    hide Occurs, QueuedFor;
    var q := s.subs[i].queue;
    OccursAppend(q, [x], m);
    OccursOne(x, m);
    QueuedUpdate(s.subs, i, s.subs[i].(queue := q + [x]), m);
  }

  lemma MissedReferences(s: State, i: nat, m: nat)
    requires i < |s.subs|
    ensures References(Missed(s, i), m) == References(s, m)
  {
    hide Occurs, QueuedFor;
    QueuedUpdate(s.subs, i, s.subs[i].(missed := true), m);
  }

  lemma UnmarkedReferences(s: State, i: nat, m: nat)
    requires i < |s.subs|
    ensures References(Unmarked(s, i), m) == References(s, m)
  {
    hide Occurs, QueuedFor;
    QueuedUpdate(s.subs, i, s.subs[i].(unmarked := true), m);
  }

  lemma EmptiedReferences(s: State, i: nat, sub: Subscriber, m: nat)
    requires i < |s.subs| && !Emptied(s, i, sub).cleared
    ensures References(Emptied(s, i, sub), m) == References(s, m)
  {
    hide Occurs, QueuedFor, Ids;
    OccursNone(s.subs[i].queue, m);
    NothingQueued(m);
    QueuedUpdate(s.subs, i, sub.(queue := []), m);
  }

  lemma LoopReferences(s: State, l: LoopStep, m: nat)
    requires LoopCan(s, l)
    ensures Balanced(s, Loop(l), Looped(s, l), m)
  {
    hide Occurs, QueuedFor, Ids, Registered;
    if l == Pop {
      OccursAppend([s.mq[0]], s.mq[1..], m);
      OccursOne(s.mq[0], m);
      assert s.mq == [s.mq[0]] + s.mq[1..];
    }
  }

  lemma DeliveryReferences(s: State, d: DeliveryStep, m: nat)
    requires Shaped(s) && DeliveryCan(s, d) && !Delivered(s, d).cleared
    ensures Balanced(s, Delivery(d), Delivered(s, d), m)
  {
    hide Occurs, QueuedFor, Queued, Missed, Unmarked, Emptied;
    match d
    case Ref(i) =>
    case RefFails(i) =>
      MissedReferences(s.(disp := Broadcasting(s.disp.item, s.disp.todo - {i})), i, m);
    case Push =>
      QueuedReferences(s.(disp := Broadcasting(Msg(s.disp.id), s.disp.todo)), s.disp.sub, Msg(s.disp.id), m);
    case PushFails =>
      MissedReferences(Unref(s.(disp := Broadcasting(Msg(s.disp.id), s.disp.todo)), s.disp.id), s.disp.sub, m);
    case ShutClear(i) =>
      EmptiedReferences(s.(disp := Shutting(s.disp.todo - {i}, i)), i, s.subs[i].(shut := true), m);
    case ShutPush =>
      QueuedReferences(s.(disp := Broadcasting(Marker, s.disp.todo)), s.disp.sub, Marker, m);
    case ShutPushFails =>
      UnmarkedReferences(s.(disp := Broadcasting(Marker, s.disp.todo)), s.disp.sub, m);
  }

  lemma ClientReferences(s: State, c: ClientStep, m: nat)
    requires ClientCan(s, c) && !Served(s, c).cleared
    ensures Balanced(s, Client(c), Served(s, c), m)
  {
    hide Occurs, QueuedFor, Ids, Emptied;
    match c
    case Subscribe =>
      NothingQueued(m);
      QueuedAppend(s.subs, Subscriber(true, true, [], [], |s.dispatched|, 0, false, false, false, false), m);
    case Unsubscribe(i) =>
      QueuedUpdate(s.subs, i, s.subs[i].(registered := false, to := |s.dispatched|), m);
    case Destroy(i) =>
      EmptiedReferences(s, i, s.subs[i].(alive := false), m);
    case Take(i) =>
      TakeReferences(s, i, m);
    case Done(x) =>
  }

  lemma TakeReferences(s: State, i: nat, m: nat)
    requires ClientCan(s, Take(i))
    ensures References(Served(s, Take(i)), m) == References(s, m)
  {
    hide Occurs, QueuedFor;
    var q := s.subs[i].queue;
    OccursAppend([q[0]], q[1..], m);
    OccursOne(q[0], m);
    assert q == [q[0]] + q[1..];
    QueuedUpdate(s.subs, i, Served(s, Take(i)).subs[i], m);
  }

  lemma ReferencesStep(s: State, a: Action, m: nat)
    requires Shaped(s) && Enabled(s, a) && !Apply(s, a).cleared
    ensures Balanced(s, a, Apply(s, a), m)
  {
    hide Published, Looped, Delivered, Served, Balanced;
    match a
    case Publisher(p) => PublisherReferences(s, p, m);
    case Loop(l) => LoopReferences(s, l, m);
    case Delivery(d) => DeliveryReferences(s, d, m);
    case Client(c) => ClientReferences(s, c, m);
  }

  /** An action that gives a reference up finds a message that is not freed: neither the
      underflow branch of `mailbox_message_unref` nor a reference to a freed message is reachable. */
  lemma NoUnderflow(s: State, a: Action)
    requires Counted(s) && Enabled(s, a)
    ensures GivesUp(s, a) >= 0 ==> Count(s.msgs, GivesUp(s, a)) > 0
    ensures a.Delivery? && a.d.Ref? ==> Count(s.msgs, s.disp.item.id) > 0
  {
    hide QueuedFor, Occurs, Freed;
    var m := if GivesUp(s, a) >= 0 then GivesUp(s, a) else TakesOn(s, a);
    if m >= 0 && a != Publisher(Create) {
      assert References(s, m) >= 1;
    }
  }

  /** What an action does to the messages. */
  function MessagesAfter(s: State, a: Action): Messages
    requires Enabled(s, a)
  {
    match a
    case Publisher(Create) => NewMessage(s.msgs)
    case Delivery(Ref(i)) => RefMessage(s.msgs, s.disp.item.id)
    case _ => if GivesUp(s, a) >= 0 then UnrefMessage(s.msgs, GivesUp(s, a)) else s.msgs
  }

  lemma MessagesStep(s: State, a: Action)
    requires Enabled(s, a)
    ensures Apply(s, a).msgs == MessagesAfter(s, a)
  {
    hide Ids, Registered, NewMessage, RefMessage, UnrefMessage, Count;
    match a
    case Publisher(p) =>
    case Loop(l) =>
    case Delivery(d) =>
    case Client(c) =>
  }

  lemma UnrefKeeps(x: Messages, m: nat)
    requires Freed(x) && Count(x, m) > 0
    ensures Freed(UnrefMessage(x, m))
    ensures forall k :: Count(UnrefMessage(x, m), k) == Count(x, k) - if k == m then 1 else 0
  {
  }

  lemma RefKeeps(x: Messages, m: nat)
    requires Freed(x) && Count(x, m) > 0
    ensures Freed(RefMessage(x, m))
    ensures forall k :: Count(RefMessage(x, m), k) == Count(x, k) + if k == m then 1 else 0
  {
  }

  lemma NewKeeps(x: Messages)
    requires Freed(x)
    ensures Freed(NewMessage(x))
    ensures forall k :: Count(NewMessage(x), k) == Count(x, k) + if k == x.next then 1 else 0
  {
  }

  /** Every action keeps the counts exact and frees a message with its last reference. */
  lemma CountedStep(s: State, a: Action)
    requires Shaped(s) && Counted(s) && Enabled(s, a) && !Apply(s, a).cleared
    ensures Counted(Apply(s, a))
  {
    hide References, Apply, Freed, Count, NewMessage, RefMessage, UnrefMessage;
    var s' := Apply(s, a);
    NoUnderflow(s, a);
    MessagesStep(s, a);
    if a == Publisher(Create) {
      NewKeeps(s.msgs);
    } else if TakesOn(s, a) >= 0 {
      RefKeeps(s.msgs, TakesOn(s, a));
    } else if GivesUp(s, a) >= 0 {
      UnrefKeeps(s.msgs, GivesUp(s, a));
    }
    forall m
      ensures References(s', m) == Count(s'.msgs, m)
    {
      ReferencesStep(s, a, m);
    }
  }

  // ---------------------------------------------------------------- the code of a message

  /** `mailbox_message`, with its count changed in place under its lock. */
  class MailboxMessage {
    var refCount: nat
    var freed: bool
    ghost var destroyed: nat   // how often the payload was destroyed

    /** The message as one of those in `Messages`, under number `m`. */
    ghost predicate Shows(x: Messages, m: nat)
      reads this
    {
      && (freed <==> m !in x.counts)
      && (!freed ==> refCount == x.counts[m])
      && destroyed == (if m in x.destroyed then 1 else 0)
    }

    constructor ()
      ensures refCount == 1 && !freed && destroyed == 0
    {
      refCount := 1;
      freed := false;
      destroyed := 0;
    }

    /** `locked` says whether the mutex of the message could be taken. */
    method Ref(locked: bool, ghost x: Messages, ghost m: nat) returns (ret: int)
      requires Shows(x, m) && !freed
      modifies this
      ensures ret == 0 <==> locked && old(refCount) != INT_MAX
      ensures if ret == 0 then Shows(RefMessage(x, m), m) else Shows(x, m)
    {
      if !locked {
        return -1;
      }
      if refCount == INT_MAX {
        return -1;
      }
      refCount := refCount + 1;
      return 0;
    }

    method Unref(locked: bool, ghost x: Messages, ghost m: nat)
      requires Shows(x, m) && !freed && Freed(x)
      modifies this
      ensures if locked then Shows(UnrefMessage(x, m), m) else Shows(x, m)
      ensures freed <==> locked && old(refCount) == 1
    {
      if !locked {
        return;
      }
      if refCount == 0 {
        return;
      }
      refCount := refCount - 1;
      if refCount == 0 {
        destroyed := destroyed + 1;
        freed := true;
      }
    }
  }
}

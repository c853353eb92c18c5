/** What the histories kept with the mailbox mean: each of them said by the actions of the run. */
module MailboxHistory {
  import opened Common
  import opened Mailbox
  import opened MailboxRuns

  // ---------------------------------------------------------------- the states of a run

  lemma {:induction false} LegalPrefix(s: State, run: seq<Action>, p: nat)
    requires Legal(s, run) && p <= |run|
    ensures Legal(s, run[..p])
    ensures p < |run| ==> Enabled(After(s, run[..p]), run[p])
    ensures p < |run| ==> Legal(s, run[..p + 1]) && After(s, run[..p + 1]) == Apply(After(s, run[..p]), run[p])
    decreases |run|
  {
    hide Enabled, Apply;
    if p > 0 {
      assert run[..p][1..] == run[1..][..p - 1];
      LegalPrefix(Apply(s, run[0]), run[1..], p - 1);
      if p < |run| {
        assert run[..p + 1][1..] == run[1..][..p];
      }
    } else if run != [] {
      assert run[..1][1..] == [];
      assert Legal(Apply(s, run[0]), []) && After(Apply(s, run[0]), []) == Apply(s, run[0]);
    }
  }

  /** The state before the action at position `p`; after the last one for `p == |run|`. */
  ghost function Before(run: seq<Action>, p: nat): State
    requires Legal(INIT, run) && p <= |run|
  {
    LegalPrefix(INIT, run, p);
    After(INIT, run[..p])
  }

  lemma BeforeNext(run: seq<Action>, p: nat)
    requires Legal(INIT, run) && p < |run|
    ensures Enabled(Before(run, p), run[p]) && Before(run, p + 1) == Apply(Before(run, p), run[p])
  {
    hide Enabled, Apply, Legal, After;
    LegalPrefix(INIT, run, p);
  }

  lemma BeforeEnd(run: seq<Action>)
    requires Legal(INIT, run)
    ensures Before(run, |run|) == After(INIT, run) && Before(run, 0) == INIT
  {
    assert run[..|run|] == run && run[..0] == [];
  }

  lemma BeforeIsOrdered(run: seq<Action>, p: nat)
    requires Legal(INIT, run) && p <= |run|
    ensures Ordered(Before(run, p))
  {
    hide Ordered, Lined, Counted, Legal, After;
    LegalPrefix(INIT, run, p);
    InvariantAtStart();
    InvariantKept(INIT, run[..p]);
  }

  // ---------------------------------------------------------------- what has happened

  datatype Flag = Left | Destroyed | Missed | Shut | Unmarked | Lost | Cleared

  /** The history says that it has happened, to subscriber `i` or to the mailbox. */
  predicate Has(s: State, f: Flag, i: nat)
  {
    match f
    case Left => i < |s.subs| && !s.subs[i].registered
    case Destroyed => i < |s.subs| && !s.subs[i].alive
    case Missed => i < |s.subs| && s.subs[i].missed
    case Shut => i < |s.subs| && s.subs[i].shut
    case Unmarked => i < |s.subs| && s.subs[i].unmarked
    case Lost => s.lost
    case Cleared => s.cleared
  }

  /** The action makes it happen: it is an unsubscribe or a destruction of `i`, a push to `i` that fails,
      the clearing of its queue, a marker it does not get; a message taken out and not broadcast; or
      messages dropped from a queue that is cleared. */
  predicate Makes(s: State, a: Action, f: Flag, i: nat)
  {
    match f
    case Left => a == Client(Unsubscribe(i))
    case Destroyed => a == Client(Destroy(i))
    case Missed => a == Delivery(RefFails(i)) || (a == Delivery(PushFails) && s.disp.Pushing? && s.disp.sub == i)
    case Shut => a == Delivery(ShutClear(i))
    case Unmarked => a == Delivery(ShutPushFails) && s.disp.Shutting? && s.disp.sub == i
    case Lost =>
      || (a == Publisher(ClearQueue) && Ids(s.mq) != [])
      || ((a == Loop(LockFails) || a == Loop(IteratorFails)) && s.disp.Popped? && s.disp.item.Msg?)
    case Cleared =>
      || (a == Publisher(ClearQueue) && Ids(s.mq) != [])
      || (a.Delivery? && a.d.ShutClear? && Ids(At(s, a.d.sub).queue) != [])
      || (a.Client? && a.c.Destroy? && Ids(At(s, a.c.sub).queue) != [])
  }

  lemma FlagStep(s: State, a: Action, f: Flag, i: nat)
    requires Shaped(s) && Enabled(s, a)
    ensures Has(Apply(s, a), f, i) <==> Has(s, f, i) || Makes(s, a, f, i)
  {
    hide Ids, UnrefMessage, RefMessage, NewMessage, Registered, Apply, Enabled;
    match a
    case Publisher(p) => PublisherFlag(s, p, f, i);
    case Loop(l) => LoopFlag(s, l, f, i);
    case Delivery(d) => DeliveryFlag(s, d, f, i);
    case Client(c) => ClientFlag(s, c, f, i);
  }

  lemma PublisherFlag(s: State, p: PublisherStep, f: Flag, i: nat)
    requires Enabled(s, Publisher(p))
    ensures Has(Apply(s, Publisher(p)), f, i) <==> Has(s, f, i) || Makes(s, Publisher(p), f, i)
  {
    hide Ids, UnrefMessage, NewMessage;
  }

  lemma LoopFlag(s: State, l: LoopStep, f: Flag, i: nat)
    requires Enabled(s, Loop(l))
    ensures Has(Apply(s, Loop(l)), f, i) <==> Has(s, f, i) || Makes(s, Loop(l), f, i)
  {
    hide Ids, UnrefMessage, Registered;
  }

  lemma DeliveryFlag(s: State, d: DeliveryStep, f: Flag, i: nat)
    requires Shaped(s) && Enabled(s, Delivery(d))
    ensures Has(Apply(s, Delivery(d)), f, i) <==> Has(s, f, i) || Makes(s, Delivery(d), f, i)
  {
    hide Ids, UnrefMessage, RefMessage;
    if d.Ref? || d.Push? {
    } else if d.RefFails? || d.PushFails? {
    } else {
    }
  }

  lemma ClientFlag(s: State, c: ClientStep, f: Flag, i: nat)
    requires Enabled(s, Client(c))
    ensures Has(Apply(s, Client(c)), f, i) <==> Has(s, f, i) || Makes(s, Client(c), f, i)
  {
    hide Ids, UnrefMessage;
  }

  ghost predicate Happened(run: seq<Action>, n: nat, f: Flag, i: nat)
    requires Legal(INIT, run) && n <= |run|
  {
    exists p :: 0 <= p < n && Makes(Before(run, p), run[p], f, i)
  }

  lemma {:induction false} FlagBefore(run: seq<Action>, n: nat, f: Flag, i: nat)
    requires Legal(INIT, run) && n <= |run|
    ensures Has(Before(run, n), f, i) <==> Happened(run, n, f, i)
    decreases n
  {
    hide Has, Makes, Enabled, Apply, Legal, After, Before, Ordered;
    if n == 0 {
      BeforeEnd(run);
      NothingHappened(f, i);
    } else {
      FlagBefore(run, n - 1, f, i);
      BeforeNext(run, n - 1);
      BeforeIsOrdered(run, n - 1);
      OrderedIsShaped(Before(run, n - 1));
      FlagStep(Before(run, n - 1), run[n - 1], f, i);
    }
  }

  lemma NothingHappened(f: Flag, i: nat)
    ensures !Has(INIT, f, i)
  {
  }

  /** Over every run, each history holds exactly if some action of the run made it happen. */
  lemma HistoryIs(run: seq<Action>, f: Flag, i: nat)
    requires Legal(INIT, run)
    ensures Has(After(INIT, run), f, i) <==> Happened(run, |run|, f, i)
  {
    hide Has, Makes, Legal, After, Before;
    FlagBefore(run, |run|, f, i);
    BeforeEnd(run);
  }

  // ---------------------------------------------------------------- from subscribe to unsubscribe

  /** How one step changes a subscriber's span and the order of broadcast. */
  ghost predicate SpanChange(s: State, a: Action, s': State, i: nat)
  {
    && |s'.subs| == |s.subs| + (if a == Client(Subscribe) then 1 else 0)
    && s.dispatched <= s'.dispatched
    && (i < |s.subs| ==> s'.subs[i].from == s.subs[i].from)
    && (i < |s.subs| && a != Client(Unsubscribe(i)) ==> s'.subs[i].to == s.subs[i].to)
    && (a == Client(Unsubscribe(i)) ==> i < |s.subs| && s'.subs[i].to == |s.dispatched|)
    && (a == Client(Subscribe) && i == |s.subs| ==> s'.subs[i].from == |s.dispatched|)
  }

  lemma SpanStep(s: State, a: Action, i: nat)
    requires Enabled(s, a)
    ensures SpanChange(s, a, Apply(s, a), i)
  {
    hide SpanChange;
    match a
    case Publisher(p) => PublisherSpan(s, p, i);
    case Loop(l) => LoopSpan(s, l, i);
    case Delivery(d) => DeliverySpan(s, d, i);
    case Client(c) => ClientSpan(s, c, i);
  }

  lemma PublisherSpan(s: State, p: PublisherStep, i: nat)
    requires PublisherCan(s, p)
    ensures SpanChange(s, Publisher(p), Published(s, p), i)
  {
    hide Ids, UnrefMessage, NewMessage;
  }

  lemma LoopSpan(s: State, l: LoopStep, i: nat)
    requires LoopCan(s, l)
    ensures SpanChange(s, Loop(l), Looped(s, l), i)
  {
    hide Ids, UnrefMessage, Registered;
  }

  lemma DeliverySpan(s: State, d: DeliveryStep, i: nat)
    requires DeliveryCan(s, d)
    ensures SpanChange(s, Delivery(d), Delivered(s, d), i)
  {
    hide Ids, UnrefMessage, RefMessage;
    DeliveryLine(s, d);
  }

  lemma ClientSpan(s: State, c: ClientStep, i: nat)
    requires ClientCan(s, c)
    ensures SpanChange(s, Client(c), Served(s, c), i)
  {
    hide Ids, UnrefMessage;
    ClientLine(s, c);
  }

  /** Later states of a run: spans stay, and broadcasts are only added. */
  lemma {:induction false} SpanStays(run: seq<Action>, p: nat, q: nat, i: nat)
    requires Legal(INIT, run) && p <= q <= |run|
    ensures |Before(run, p).subs| <= |Before(run, q).subs|
    ensures Before(run, p).dispatched <= Before(run, q).dispatched
    ensures i < |Before(run, p).subs| ==> Before(run, q).subs[i].from == Before(run, p).subs[i].from
    ensures i < |Before(run, p).subs| && !Before(run, p).subs[i].registered ==>
              !Before(run, q).subs[i].registered && Before(run, q).subs[i].to == Before(run, p).subs[i].to
    decreases q
  {
    hide Enabled, Apply, Legal, After, Before;
    if p < q {
      SpanStays(run, p, q - 1, i);
      BeforeNext(run, q - 1);
      SpanStep(Before(run, q - 1), run[q - 1], i);
      var s := Before(run, q - 1);
      if i < |s.subs| && !s.subs[i].registered {
        BeforeIsOrdered(run, q - 1);
        OrderedIsShaped(s);
        OnceLeft(s, run[q - 1], i);
      }
    }
  }

  lemma OnceLeft(s: State, a: Action, i: nat)
    requires Shaped(s) && Enabled(s, a) && i < |s.subs| && !s.subs[i].registered
    ensures a != Client(Unsubscribe(i)) && i < |Apply(s, a).subs| && !Apply(s, a).subs[i].registered
  {
    hide Apply, Ids;
    FlagStep(s, a, Left, i);
  }

  /** The action at `p` is the subscribe that made subscriber `i`. */
  ghost predicate MadeAt(run: seq<Action>, p: nat, i: nat)
    requires Legal(INIT, run)
  {
    p < |run| && run[p] == Client(Subscribe) && |Before(run, p).subs| == i
  }

  /** Every subscriber was made by a subscribe. */
  lemma {:induction false} MadeBySubscribe(run: seq<Action>, n: nat, i: nat) returns (p: nat)
    requires Legal(INIT, run) && n <= |run| && i < |Before(run, n).subs|
    ensures p < n && MadeAt(run, p, i)
    decreases n
  {
    hide Enabled, Apply, Legal, After, Before;
    p := 0;
    if n == 0 {
      BeforeEnd(run);
      assert false;
    } else {
      BeforeNext(run, n - 1);
      SpanStep(Before(run, n - 1), run[n - 1], i);
      if i < |Before(run, n - 1).subs| {
        p := MadeBySubscribe(run, n - 1, i);
      } else {
        p := n - 1;
      }
    }
  }

  /** Over every run, and by its actions alone: after its unsubscribe at `q` a subscriber is not registered
      any more, and all it took or still has waiting was broadcast between its subscribe at `p` and `q`.
      If no push to it failed and it was neither shut down nor destroyed, that is exactly what it took
      and what waits, in the order of broadcast. */
  lemma LeavesForGood(run: seq<Action>, p: nat, q: nat, i: nat)
    requires Legal(INIT, run) && MadeAt(run, p, i) && p < q < |run| && run[q] == Client(Unsubscribe(i))
    ensures i < |After(INIT, run).subs| && !After(INIT, run).subs[i].registered
    ensures var d := Before(run, q).dispatched;
            var sub := After(INIT, run).subs[i];
            && |Before(run, p).dispatched| <= |d|
            && var span := d[|Before(run, p).dispatched|..];
               && Inside(sub, span)
               && (!Happened(run, |run|, Missed, i) && !Happened(run, |run|, Shut, i) && !Happened(run, |run|, Destroyed, i) ==>
                     sub.popped + Ids(sub.queue) == span)
  {
    hide Enabled, Apply, Legal, After, Before, Ids, Inside, Happened;
    var n := |run|;
    SpanOf(run, p, q + 1, i);
    BeforeNext(run, q);
    SpanStep(Before(run, q), run[q], i);
    Unregisters(Before(run, q), i);
    SpanStays(run, q + 1, n, i);
    SpanStays(run, q, n, i);
    SpanStays(run, p, q, i);
    BeforeEnd(run);
    BeforeIsOrdered(run, n);
    var s := After(INIT, run);
    assert SubscriberOk(s, i);
    assert s.dispatched[..|Before(run, q).dispatched|] == Before(run, q).dispatched;
    assert Share(s, i) == Before(run, q).dispatched[|Before(run, p).dispatched|..];
    HistoryIs(run, Missed, i);
    HistoryIs(run, Shut, i);
    HistoryIs(run, Destroyed, i);
  }

  lemma Unregisters(s: State, i: nat)
    requires Enabled(s, Client(Unsubscribe(i)))
    ensures i < |Apply(s, Client(Unsubscribe(i))).subs| && !Apply(s, Client(Unsubscribe(i))).subs[i].registered
  {
  }

  lemma SpanOf(run: seq<Action>, p: nat, q: nat, i: nat)
    requires Legal(INIT, run) && MadeAt(run, p, i) && p < q <= |run|
    ensures i < |Before(run, q).subs| && Before(run, q).subs[i].from == |Before(run, p).dispatched|
  {
    hide Enabled, Apply, Legal, After, Before;
    BeforeNext(run, p);
    SpanStep(Before(run, p), run[p], i);
    SpanStays(run, p + 1, q, i);
  }

  /** A subscriber that has not left: what it took and what waits is what was broadcast since its subscribe,
      but for the message being handed round when it is not its turn yet. */
  lemma StaysServed(run: seq<Action>, p: nat, i: nat)
    requires Legal(INIT, run) && MadeAt(run, p, i) && Client(Unsubscribe(i)) !in run
    ensures var s := After(INIT, run);
            && i < |s.subs| && s.subs[i].registered
            && |Before(run, p).dispatched| <= |s.dispatched|
            && var since := s.dispatched[|Before(run, p).dispatched|..];
               && Inside(s.subs[i], since)
               && (!Happened(run, |run|, Missed, i) && !Happened(run, |run|, Shut, i) && !Happened(run, |run|, Destroyed, i) ==>
                     var seen := s.subs[i].popped + Ids(s.subs[i].queue);
                     seen == since || (s.disp.Locked() && Visiting(s.disp, i) && since != [] && seen == since[..|since| - 1]))
  {
    hide Enabled, Apply, Legal, After, Before, Ids, Happened, Makes;
    SpanOf(run, p, |run|, i);
    SpanStays(run, p, |run|, i);
    BeforeEnd(run);
    BeforeIsOrdered(run, |run|);
    var s := After(INIT, run);
    HistoryIs(run, Left, i);
    NeverLeft(run, i);
    assert SubscriberOk(s, i);
    var since := s.dispatched[|Before(run, p).dispatched|..];
    assert Share(s, i) == since || (End(s, i) == |s.dispatched| - 1 && Share(s, i) == since[..|since| - 1]);
    HistoryIs(run, Missed, i);
    HistoryIs(run, Shut, i);
    HistoryIs(run, Destroyed, i);
  }

  lemma NeverLeft(run: seq<Action>, i: nat)
    requires Legal(INIT, run) && Client(Unsubscribe(i)) !in run
    ensures !Happened(run, |run|, Left, i)
  {
    hide Legal, After, Before;
  }
}

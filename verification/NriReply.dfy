/** What becomes of a plugin's whole reply: all of it is collected if the reply succeeds, and a reply
    that fails stops at one part, with the parts before it collected and those behind it untouched. */
module NriReply {
  import opened Common
  import opened NriClaims
  import opened NriLists
  import opened NriResult

  // ---------------------------------------------------------------- what is asked for

  function Asked(a: Adjustment, k: Kind): seq<Entry>
  {
    match k
    case Mounts => a.mounts
    case Env => a.env
    case Devices => if a.linux.Some? then a.linux.value.devices else []
    case Rlimits => a.rlimits
    case _ => []
  }

  /** What stays of the list `k`; limits cannot be removed. */
  function Kept(s: Result, a: Adjustment, k: Kind): seq<Entry>
  {
    if k == Rlimits then ListOf(s, k) else Without(ListOf(s, k), Removals(Asked(a, k)))
  }

  function Added(a: Adjustment, k: Kind): seq<Entry>
  {
    if k == Rlimits then Asked(a, k) else Additions(Asked(a, k))
  }

  /** The scalars a reply asks for, with the cgroups path among them. */
  function AskedScalars(a: Adjustment): map<Field, string>
  {
    if a.linux.None? then map[]
    else
      var l := a.linux.value;
      var rs := if l.resources.Some? then l.resources.value.scalars - {CgroupsPath} else map[];
      if l.cgroupsPath == "" then rs else rs[CgroupsPath := l.cgroupsPath]
  }

  ghost predicate ListDone(s: Result, t: Result, a: Adjustment, k: Kind)
  {
    ListOf(t, k) == Kept(s, a, k) + Added(a, k)
  }

  /** As before, or the removals and a beginning of the additions. */
  ghost predicate ListPartly(s: Result, t: Result, a: Adjustment, k: Kind)
  {
    ListOf(t, k) == ListOf(s, k) || Begun(ListOf(t, k), Kept(s, a, k), Added(a, k))
  }

  ghost predicate ScalarsDone(s: Result, t: Result, a: Adjustment)
  {
    Merged(s.adjust.scalars, AskedScalars(a).Keys, AskedScalars(a), t.adjust.scalars)
  }

  function Values(us: seq<Option<UpdateRequest>>): seq<UpdateRequest>
  {
    if us == [] then []
    else
      var u := us[|us| - 1];
      Values(us[..|us| - 1]) + (if u.Some? then [u.value] else [])
  }

  // ---------------------------------------------------------------- one part at a time

  /** Nothing but the list `k` and its owners changes. */
  ghost predicate OnlyList(s: Result, t: Result, k: Kind)
  {
    && SameUpdates(s, t) && t.adjust == s.adjust
    && forall x :: x in ADJUSTED && x != k ==> ListOf(t, x) == ListOf(s, x)
  }

  lemma ListPart(s: Result, k: Kind, es: seq<Entry>, plugin: string)
    requires k in ADJUSTED
    ensures var r := AdjustList(s, k, es, plugin);
            && OnlyList(s, r.result, k)
            && (r.ok ==> ListOf(r.result, k) == Without(ListOf(s, k), Removals(es)) + Additions(es))
            && Begun(ListOf(r.result, k), Without(ListOf(s, k), Removals(es)), Additions(es))
  {
    hide Adjusted, Begun, Without, Additions;
    AdjustedResult(Collect(s, k), es, plugin);
  }

  lemma RlimitsPart(s: Result, es: seq<Entry>, plugin: string)
    ensures var r := AdjustRlimits(s, es, plugin);
            && OnlyList(s, r.result, Rlimits)
            && (r.ok ==> ListOf(r.result, Rlimits) == ListOf(s, Rlimits) + es)
            && Begun(ListOf(r.result, Rlimits), ListOf(s, Rlimits), es)
  {
    hide AddAll, Begun;
    AddAllList(Collect(s, Rlimits), es, plugin);
  }

  ghost predicate SameLists(s: Result, t: Result)
  {
    SameUpdates(s, t) && t.lists == s.lists
  }

  lemma ResourcesPart(s: Result, src: Option<Resources>, plugin: string)
    ensures var r := AdjustResources(s, src, plugin);
            && SameLists(s, r.result)
            && (r.ok && src.None? ==> r.result.adjust == s.adjust)
            && (r.ok && src.Some? ==>
                  Merged(s.adjust.scalars, src.value.scalars.Keys - {CgroupsPath}, src.value.scalars, r.result.adjust.scalars))
  {
    hide ClaimResources, Merged;
    if src.Some? {
      GrantedIsCollected(OwnerOf(s, s.conId), s.adjust, src.value, plugin);
    }
  }

  lemma PathPart(s: Result, path: string, plugin: string)
    ensures var r := AdjustCgroupsPath(s, path, plugin);
            && SameLists(s, r.result)
            && (r.ok ==> r.result.adjust.scalars == if path == "" then s.adjust.scalars else s.adjust.scalars[CgroupsPath := path])
            && (!r.ok ==> r.result.adjust == s.adjust)
  {
  }

  lemma BothMerged(r0: map<Field, string>, a: Adjustment, r1: map<Field, string>, r2: map<Field, string>)
    requires a.linux.Some?
    requires var src := a.linux.value.resources;
             if src.None? then r1 == r0 else Merged(r0, src.value.scalars.Keys - {CgroupsPath}, src.value.scalars, r1)
    requires var path := a.linux.value.cgroupsPath;
             r2 == if path == "" then r1 else r1[CgroupsPath := path]
    ensures Merged(r0, AskedScalars(a).Keys, AskedScalars(a), r2)
  {
  }

  lemma NothingMerged(r: map<Field, string>, a: Adjustment)
    requires a.linux.None?
    ensures Merged(r, AskedScalars(a).Keys, AskedScalars(a), r)
  {
  }

  // ---------------------------------------------------------------- the linux part

  /** Devices, then resources, then the path. */
  lemma LinuxPart(s: Result, a: Adjustment, plugin: string)
    requires a.linux.Some?
    ensures var r := AdjustLinux(s, a.linux.value, plugin);
            var t := r.result;
            && SameUpdates(s, t)
            && (forall k :: k in {Mounts, Env, Rlimits} ==> ListOf(t, k) == ListOf(s, k))
            && ListPartly(s, t, a, Devices)
            && (r.ok ==> ListDone(s, t, a, Devices) && ScalarsDone(s, t, a))
            && (t.adjust != s.adjust ==> ListDone(s, t, a, Devices))
  {
    hide AdjustList, AdjustResources, AdjustCgroupsPath, Merged, AskedScalars, Begun, Without, Additions, Removals;
    var l := a.linux.value;
    var r1 := AdjustList(s, Devices, l.devices, plugin);
    ListPart(s, Devices, l.devices, plugin);
    if r1.ok {
      var r2 := AdjustResources(r1.result, l.resources, plugin);
      ResourcesPart(r1.result, l.resources, plugin);
      if r2.ok {
        PathPart(r2.result, l.cgroupsPath, plugin);
        var r3 := AdjustCgroupsPath(r2.result, l.cgroupsPath, plugin);
        if r3.ok {
          BothMerged(s.adjust.scalars, a, r2.result.adjust.scalars, r3.result.adjust.scalars);
        }
      }
    }
  }

  // ---------------------------------------------------------------- the whole adjustment

  /** How far an adjustment has got: each list is done, begun or as before, and a part has changed only
      if all parts before it are done. */
  ghost predicate InOrder(s: Result, t: Result, a: Adjustment)
  {
    && (forall k :: k in ADJUSTED ==> ListPartly(s, t, a, k))
    && (ListOf(t, Env) != ListOf(s, Env) ==> ListDone(s, t, a, Mounts))
    && (ListOf(t, Devices) != ListOf(s, Devices) || t.adjust != s.adjust || ListOf(t, Rlimits) != ListOf(s, Rlimits) ==>
          ListDone(s, t, a, Mounts) && ListDone(s, t, a, Env) && !a.hooks)
    && (t.adjust != s.adjust ==> ListDone(s, t, a, Devices))
    && (ListOf(t, Rlimits) != ListOf(s, Rlimits) ==> ListDone(s, t, a, Devices) && ScalarsDone(s, t, a))
    && ((exists k :: k in ADJUSTED && ListOf(t, k) != ListOf(s, k)) || t.adjust != s.adjust ==> a.annotationsOk)
  }

  ghost predicate AllDone(s: Result, t: Result, a: Adjustment)
  {
    && a.annotationsOk && !a.hooks
    && (forall k :: k in ADJUSTED ==> ListDone(s, t, a, k))
    && ScalarsDone(s, t, a)
  }

  lemma AdjustIs(s: Result, a: Adjustment, plugin: string)
    ensures var r := Adjust(s, a, plugin);
            SameUpdates(s, r.result) && InOrder(s, r.result, a) && (r.ok ==> AllDone(s, r.result, a))
  {
    hide AdjustList, AdjustLinux, AdjustRlimits, InOrder, AllDone, Merged, AskedScalars, Begun, Without, Additions, Removals;
    NothingChanged(s, a);
    if a.annotationsOk {
      var r1 := AdjustList(s, Mounts, a.mounts, plugin);
      ListPart(s, Mounts, a.mounts, plugin);
      MountsInOrder(s, r1.result, a);
      if r1.ok {
        var r2 := AdjustList(r1.result, Env, a.env, plugin);
        ListPart(r1.result, Env, a.env, plugin);
        EnvInOrder(s, r1.result, r2.result, a);
        if r2.ok && !a.hooks {
          var r3 := if a.linux.Some? then AdjustLinux(r2.result, a.linux.value, plugin) else r2;
          LinuxOrNot(r2.result, a, plugin);
          LinuxInOrder(s, r2.result, r3.result, a);
          if r3.ok {
            RlimitsPart(r3.result, a.rlimits, plugin);
            RlimitsInOrder(s, r3.result, AdjustRlimits(r3.result, a.rlimits, plugin), a);
          }
        }
      }
    }
  }

  lemma MountsInOrder(s: Result, t: Result, a: Adjustment)
    requires a.annotationsOk && OnlyList(s, t, Mounts) && ListPartly(s, t, a, Mounts)
    ensures InOrder(s, t, a)
  {
    hide Begun, Without, Additions, Removals;
  }

  lemma EnvInOrder(s: Result, s': Result, t: Result, a: Adjustment)
    requires a.annotationsOk && OnlyList(s, s', Mounts) && ListDone(s, s', a, Mounts) && ListPartly(s, s', a, Mounts)
    requires OnlyList(s', t, Env) && ListPartly(s', t, a, Env)
    ensures InOrder(s, t, a)
  {
    hide Begun, Without, Additions, Removals;
  }

  /** Mounts and environment are done, limits as before. */
  ghost predicate FrontDone(s: Result, t: Result, a: Adjustment)
  {
    && a.annotationsOk && !a.hooks
    && ListDone(s, t, a, Mounts) && ListPartly(s, t, a, Mounts)
    && ListDone(s, t, a, Env) && ListPartly(s, t, a, Env)
    && ListOf(t, Rlimits) == ListOf(s, Rlimits)
  }

  lemma LinuxInOrder(s: Result, s': Result, t: Result, a: Adjustment)
    requires FrontDone(s, s', a) && ListOf(s', Devices) == ListOf(s, Devices) && s'.adjust == s.adjust
    requires forall k :: k in {Mounts, Env, Rlimits} ==> ListOf(t, k) == ListOf(s', k)
    requires ListPartly(s', t, a, Devices) && (t.adjust != s'.adjust ==> ListDone(s', t, a, Devices))
    ensures InOrder(s, t, a) && FrontDone(s, t, a)
  {
    hide Begun, Without, Additions, Removals;
  }

  lemma RlimitsInOrder(s: Result, s': Result, r: Outcome, a: Adjustment)
    requires FrontDone(s, s', a) && ListDone(s, s', a, Devices) && ListPartly(s, s', a, Devices) && ScalarsDone(s, s', a)
    requires OnlyList(s', r.result, Rlimits) && ListPartly(s', r.result, a, Rlimits)
    requires r.ok ==> ListDone(s', r.result, a, Rlimits)
    ensures InOrder(s, r.result, a) && (r.ok ==> AllDone(s, r.result, a))
  {
    hide Begun, Without, Additions, Removals, Merged;
  }

  lemma LinuxOrNot(s: Result, a: Adjustment, plugin: string)
    ensures var r := if a.linux.Some? then AdjustLinux(s, a.linux.value, plugin) else Outcome(s, true);
            var t := r.result;
            && SameUpdates(s, t)
            && (forall k :: k in {Mounts, Env, Rlimits} ==> ListOf(t, k) == ListOf(s, k))
            && ListPartly(s, t, a, Devices)
            && (r.ok ==> ListDone(s, t, a, Devices) && ScalarsDone(s, t, a))
            && (t.adjust != s.adjust ==> ListDone(s, t, a, Devices))
  {
    hide AdjustLinux, Merged, Begun;
    if a.linux.Some? {
      LinuxPart(s, a, plugin);
    } else {
      NothingMerged(s.adjust.scalars, a);
      NoDevices(s, a);
    }
  }

  lemma NoDevices(s: Result, a: Adjustment)
    requires a.linux.None?
    ensures ListDone(s, s, a, Devices)
  {
    NothingAsked(Collect(s, Devices));
  }

  // ---------------------------------------------------------------- the updates

  lemma {:induction false} UpdatesPart(s: Result, us: seq<Option<UpdateRequest>>, plugin: string)
    ensures var r := UpdateAll(s, us, plugin);
            && r.result.lists == s.lists && r.result.adjust == s.adjust && r.result.conId == s.conId
            && (exists n :: Processed(s, r.result, us, n))
            && (r.ok ==> Processed(s, r.result, us, |us|) && forall i :: 0 <= i < |us| ==> us[i].Some?)
  {
    hide UpdateOne, Values;
    if us == [] {
      NoneProcessed(s);
    } else {
      var m := |us| - 1;
      var r := UpdateAll(s, us[..m], plugin);
      UpdatesPart(s, us[..m], plugin);
      if r.ok {
        OneProcessed(r.result, us[m], plugin);
        ProcessedOn(s, r.result, us, m);
        if us[m].Some? && UpdateOne(r.result, us[m], plugin).result.accepted == r.result.accepted + [us[m].value] {
          assert us[..m + 1] == us;
          ProcessedNext(s, r.result, UpdateOne(r.result, us[m], plugin).result, us, m);
        } else {
          assert Processed(s, UpdateOne(r.result, us[m], plugin).result, us, m);
        }
      } else {
        var n :| Processed(s, r.result, us[..m], n);
        ProcessedOn(s, r.result, us, n);
      }
    }
  }

  /** Exactly the first `n` requests have been accepted. */
  ghost predicate Processed(s: Result, t: Result, us: seq<Option<UpdateRequest>>, n: nat)
  {
    n <= |us| && t.accepted == s.accepted + Values(us[..n])
  }

  lemma NoneProcessed(s: Result)
    ensures Processed(s, s, [], 0)
  {
    var none: seq<Option<UpdateRequest>> := [];
    assert none[..0] == [];
    assert s.accepted + [] == s.accepted;
  }

  lemma ProcessedOn(s: Result, t: Result, us: seq<Option<UpdateRequest>>, n: nat)
    requires us != [] && n <= |us| - 1 && Processed(s, t, us[..|us| - 1], n)
    ensures Processed(s, t, us, n)
  {
    assert us[..|us| - 1][..n] == us[..n];
  }

  lemma ProcessedNext(s: Result, t: Result, t': Result, us: seq<Option<UpdateRequest>>, m: nat)
    requires m < |us| && us[m].Some? && Processed(s, t, us, m) && t'.accepted == t.accepted + [us[m].value]
    ensures Processed(s, t', us, m + 1)
  {
    assert us[..m + 1][..m] == us[..m] && us[..m + 1][m] == us[m];
    Assoc(s.accepted, Values(us[..m]), [us[m].value]);
  }

  /** One request: accepted unless it is null or asks for the container being handled. */
  lemma OneProcessed(s: Result, u: Option<UpdateRequest>, plugin: string)
    ensures var r := UpdateOne(s, u, plugin);
            && r.result.lists == s.lists && r.result.adjust == s.adjust && r.result.conId == s.conId
            && r.result.accepted == s.accepted + (if u.Some? && u.value.id != s.conId then [u.value] else [])
            && (r.ok ==> u.Some? && u.value.id != s.conId)
  {
    hide ClaimResources;
    assert s.accepted + [] == s.accepted;
  }

  // ---------------------------------------------------------------- the whole reply

  /** A reply to the creation of a container that succeeds has all it asks for collected, and all its update
      requests accepted in order. */
  lemma ReplyCollected(s: Result, a: Adjustment, us: seq<Option<UpdateRequest>>, plugin: string)
    ensures var r := Apply(s, Call(CreateContainer, Some(a), us, plugin));
            r.ok ==>
              && AllDone(s, r.result, a)
              && (forall i :: 0 <= i < |us| ==> us[i].Some?)
              && r.result.accepted == s.accepted + Values(us)
  {
    hide Adjust, UpdateAll, AllDone, InOrder, Values;
    AdjustIs(s, a, plugin);
    var r := Adjust(s, a, plugin);
    if plugin != "" && r.ok {
      UpdatesPart(r.result, us, plugin);
      assert us[..|us|] == us;
      DoneStays(s, r.result, UpdateAll(r.result, us, plugin).result, a);
    }
  }

  lemma DoneStays(s: Result, t: Result, t': Result, a: Adjustment)
    requires t'.lists == t.lists && t'.adjust == t.adjust
    ensures (AllDone(s, t, a) ==> AllDone(s, t', a)) && (InOrder(s, t, a) ==> InOrder(s, t', a))
  {
    hide Merged, Begun, Kept, Added;
  }

  /** One that fails stops at one part: what comes before is collected, what comes behind is as it was; no
      update is touched unless the whole adjustment is done, and then a beginning of them is accepted. */
  lemma ReplyStops(s: Result, a: Adjustment, us: seq<Option<UpdateRequest>>, plugin: string)
    ensures var t := Apply(s, Call(CreateContainer, Some(a), us, plugin)).result;
            && InOrder(s, t, a)
            && (exists n :: Processed(s, t, us, n))
            && (t.accepted != s.accepted || t.updates != s.updates ==> AllDone(s, t, a))
            && (plugin == "" ==> t == s)
  {
    hide Adjust, UpdateAll, AllDone, InOrder, Values;
    AdjustIs(s, a, plugin);
    NothingChanged(s, a);
    NoneOf(s, us);
    if plugin != "" {
      var r := Adjust(s, a, plugin);
      if r.ok {
        UpdatesPart(r.result, us, plugin);
        DoneStays(s, r.result, UpdateAll(r.result, us, plugin).result, a);
        var n :| Processed(r.result, UpdateAll(r.result, us, plugin).result, us, n);
        assert Processed(s, UpdateAll(r.result, us, plugin).result, us, n);
      } else {
        assert Processed(s, r.result, us, 0);
      }
    }
  }

  lemma {:induction false} FieldsOnly(c: Claim, fs: seq<Field>, src: Resources, plugin: string, f: Field)
    requires f !in fs
    ensures f in ClaimFields(c, fs, src, plugin).dest.scalars <==> f in c.dest.scalars
  {
    if fs != [] {
      FieldsOnly(c, fs[..|fs| - 1], src, plugin, f);
    }
  }

  lemma PathNotCopied(owner: Option<Owners>, dest: Resources, src: Resources, plugin: string)
    ensures CgroupsPath in ClaimResources(owner, dest, src, plugin).dest.scalars <==> CgroupsPath in dest.scalars
  {
    hide ClaimFields, ClaimKeys, SlotsOf, KeepsLists, Extends;
    var c := Claim(owner, dest, true);
    FieldsOnly(c, MEMORY_AND_CPU, src, plugin, CgroupsPath);
    var c1 := ClaimFields(c, MEMORY_AND_CPU, src, plugin);
    KeysKeep(c1, HugepageLimits, src.hugepages, plugin);
    var c2 := ClaimKeys(c1, HugepageLimits, src.hugepages, plugin);
    KeysKeep(c2, Unified, src.unified, plugin);
    FieldsOnly(ClaimKeys(c2, Unified, src.unified, plugin), CLASSES, src, plugin, CgroupsPath);
  }

  /** What is new among the scalars was asked for. */
  ghost predicate ScalarsPartly(s: Result, t: Result, a: Adjustment)
  {
    && (forall f :: f in s.adjust.scalars ==> f in t.adjust.scalars && t.adjust.scalars[f] == s.adjust.scalars[f])
    && (forall f :: f in t.adjust.scalars && f !in s.adjust.scalars ==>
          f in AskedScalars(a) && t.adjust.scalars[f] == AskedScalars(a)[f])
  }

  lemma ResourcesPartly(s: Result, a: Adjustment, plugin: string)
    requires AllBacked(s) && a.linux.Some?
    ensures ScalarsPartly(s, AdjustResources(s, a.linux.value.resources, plugin).result, a)
  {
    hide ClaimResources, SlotsOf, Backed;
    if a.linux.value.resources.Some? {
      assert Backed(OwnerOf(s, s.conId), Scalars(s, s.conId));
      ClaimIsWriteOnce(OwnerOf(s, s.conId), s.adjust, a.linux.value.resources.value, plugin);
      PathNotCopied(OwnerOf(s, s.conId), s.adjust, a.linux.value.resources.value, plugin);
    }
  }

  lemma PathPartly(s: Result, a: Adjustment, plugin: string)
    requires AllBacked(s) && a.linux.Some?
    ensures ScalarsPartly(s, AdjustCgroupsPath(s, a.linux.value.cgroupsPath, plugin).result, a)
  {
    assert Backed(OwnerOf(s, s.conId), Scalars(s, s.conId));
  }

  lemma LinuxPartly(s: Result, a: Adjustment, plugin: string)
    requires AllBacked(s) && a.linux.Some?
    ensures ScalarsPartly(s, AdjustLinux(s, a.linux.value, plugin).result, a)
  {
    hide AdjustList, AdjustResources, AdjustCgroupsPath, AllBacked, Adds, AskedScalars, Adjusted, Store;
    var l := a.linux.value;
    var r1 := AdjustList(s, Devices, l.devices, plugin);
    ListPart(s, Devices, l.devices, plugin);
    AdjustListStep(s, Devices, l.devices, plugin);
    ResourcesPartly(r1.result, a, plugin);
    AdjustResourcesStep(r1.result, l.resources, plugin);
    PathPartly(AdjustResources(r1.result, l.resources, plugin).result, a, plugin);
  }

  lemma AdjustListStep(s: Result, k: Kind, es: seq<Entry>, plugin: string)
    requires AllBacked(s)
    ensures AllBacked(AdjustList(s, k, es, plugin).result)
  {
    hide Adds, AllBacked, Adjusted, Store;
    StoreStep(s, k, Adjusted(Collect(s, k), es, plugin), plugin);
  }

  /** Successful or not, a reply leaves the scalars of the container being created as they were, but for
      new ones that it asks for. */
  lemma ReplyScalars(s: Result, a: Adjustment, us: seq<Option<UpdateRequest>>, plugin: string)
    requires AllBacked(s)
    ensures ScalarsPartly(s, Apply(s, Call(CreateContainer, Some(a), us, plugin)).result, a)
  {
    hide AdjustList, AdjustLinux, AdjustRlimits, UpdateAll, AllBacked, AskedScalars, Begun, Without, Additions, Removals, Processed;
    var r1 := AdjustList(s, Mounts, a.mounts, plugin);
    ListPart(s, Mounts, a.mounts, plugin);
    AdjustListStep(s, Mounts, a.mounts, plugin);
    var r2 := AdjustList(r1.result, Env, a.env, plugin);
    ListPart(r1.result, Env, a.env, plugin);
    AdjustListStep(r1.result, Env, a.env, plugin);
    if a.linux.Some? {
      LinuxPartly(r2.result, a, plugin);
    }
    var r3 := if a.linux.Some? then AdjustLinux(r2.result, a.linux.value, plugin) else r2;
    RlimitsPart(r3.result, a.rlimits, plugin);
    UpdatesPart(Adjust(s, a, plugin).result, us, plugin);
  }

  lemma NothingChanged(s: Result, a: Adjustment)
    ensures InOrder(s, s, a)
  {
    hide Begun;
  }

  lemma NoneOf(s: Result, us: seq<Option<UpdateRequest>>)
    ensures Processed(s, s, us, 0)
  {
    assert us[..0] == [];
    assert s.accepted + [] == s.accepted;
  }

  /** Replies to an update or a stop only carry update requests; others, and those without an adjustment, too. */
  lemma OtherReplies(s: Result, c: Call)
    requires c.event != CreateContainer || c.adjust.None?
    ensures var r := Apply(s, c);
            && r.result.lists == s.lists && r.result.adjust == s.adjust
            && (exists n :: Processed(s, r.result, c.updates, n))
            && (r.ok ==> r.result.accepted == s.accepted + Values(c.updates))
            && (c.plugin == "" || c.event == OtherEvent ==> r == Outcome(s, false))
            && (c.plugin != "" && c.event != OtherEvent && c.updates == [] ==> r == Outcome(s, true))
  {
    hide UpdateOne, Values;
    NoneOf(s, c.updates);
    if c.plugin != "" && c.event != OtherEvent {
      UpdatesPart(s, c.updates, c.plugin);
      assert c.updates[..|c.updates|] == c.updates;
    }
  }

  // ---------------------------------------------------------------- what the updates leave

  lemma UpdateOneStep(s: Result, u: Option<UpdateRequest>, plugin: string)
    requires AllBacked(s)
    ensures Step(s, UpdateOne(s, u, plugin).result, plugin)
  {
    hide Adds, AllBacked, GetContainerUpdate, UpdateResources;
    var g := GetContainerUpdate(s, u);
    GetContainerUpdateStep(s, u, plugin);
    if g.ok {
      AcceptedIsThere(s, u);
      UpdateResourcesStep(g.result, u.value, plugin);
      StepTrans(s, g.result, UpdateResources(g.result, u.value, plugin).result, plugin);
    }
  }

  /** A request asks for this value of this field of this container. */
  predicate AsksFor(u: Option<UpdateRequest>, id: string, f: Field, v: string)
  {
    && u.Some? && u.value.id == id && u.value.resources.Some? && f != CgroupsPath
    && f in u.value.resources.value.scalars && u.value.resources.value.scalars[f] == v
  }

  lemma OneLands(s: Result, u: Option<UpdateRequest>, plugin: string, id: string, f: Field)
    requires Indexed(s) && AllBacked(s) && id != s.conId
    ensures var r := UpdateOne(s, u, plugin);
            && (f in Scalars(s, id) ==> f in Scalars(r.result, id) && Scalars(r.result, id)[f] == Scalars(s, id)[f])
            && (f in Scalars(r.result, id) && f !in Scalars(s, id) ==> AsksFor(u, id, f, Scalars(r.result, id)[f]))
            && (forall v :: r.ok && AsksFor(u, id, f, v) && !u.value.ignoreFailure ==>
                  f in Scalars(r.result, id) && Scalars(r.result, id)[f] == v)
  {
    hide UpdateOne, Indexed, AllBacked, AsksFor, Scalars;
    var t := UpdateOne(s, u, plugin).result;
    UpdateOneStep(s, u, plugin);
    assert Adds(s, t, id, plugin);
    if u.Some? {
      AskedLands(s, u.value, plugin, id, f);
    } else {
      UpdateLeaves(s, UpdateRequest(s.conId, false, None), plugin);
    }
  }

  lemma AskedLands(s: Result, u: UpdateRequest, plugin: string, id: string, f: Field)
    requires Indexed(s) && id != s.conId
    ensures var r := UpdateOne(s, Some(u), plugin);
            && (f in Scalars(r.result, id) && f !in Scalars(s, id) ==> AsksFor(Some(u), id, f, Scalars(r.result, id)[f]))
            && (forall v :: r.ok && AsksFor(Some(u), id, f, v) && !u.ignoreFailure ==>
                  f in Scalars(r.result, id) && Scalars(r.result, id)[f] == v)
  {
    hide UpdateOne, Indexed, Granted, LeavesAll;
    UpdateLeaves(s, u, plugin);
    OneConId(s, Some(u), plugin);
  }

  lemma OneConId(s: Result, u: Option<UpdateRequest>, plugin: string)
    ensures UpdateOne(s, u, plugin).result.conId == s.conId
  {
    hide ClaimResources;
  }

  /** The updates of a reply, taken together: nothing collected before changes; whatever is new was asked for
      by one of the requests; and if the reply succeeds, all that was asked for with a failure not to
      be ignored is there. */
  lemma {:induction false} UpdatesLand(s: Result, us: seq<Option<UpdateRequest>>, plugin: string, id: string, f: Field)
    requires Indexed(s) && AllBacked(s) && id != s.conId
    ensures var r := UpdateAll(s, us, plugin);
            && Indexed(r.result) && AllBacked(r.result) && r.result.conId == s.conId
            && (f in Scalars(s, id) ==> f in Scalars(r.result, id) && Scalars(r.result, id)[f] == Scalars(s, id)[f])
            && (f in Scalars(r.result, id) && f !in Scalars(s, id) ==>
                  exists i :: 0 <= i < |us| && AsksFor(us[i], id, f, Scalars(r.result, id)[f]))
            && (forall i, v :: 0 <= i < |us| && r.ok && AsksFor(us[i], id, f, v) && !us[i].value.ignoreFailure ==>
                  f in Scalars(r.result, id) && Scalars(r.result, id)[f] == v)
  {
    hide UpdateOne, Indexed, AllBacked, AsksFor, Scalars, Adds;
    if us != [] {
      var m := |us| - 1;
      var r := UpdateAll(s, us[..m], plugin);
      UpdatesLand(s, us[..m], plugin, id, f);
      assert forall i :: 0 <= i < m ==> us[..m][i] == us[i];
      if r.ok {
        OneLands(r.result, us[m], plugin, id, f);
        UpdateOneIndexed(r.result, us[m], plugin);
        UpdateOneStep(r.result, us[m], plugin);
      }
    }
  }

  /** The same for a whole reply, whatever event it answers. */
  lemma ReplyLands(s: Result, c: Call, id: string, f: Field)
    requires Indexed(s) && AllBacked(s) && id != s.conId
    ensures var r := Apply(s, c);
            && (f in Scalars(s, id) ==> f in Scalars(r.result, id) && Scalars(r.result, id)[f] == Scalars(s, id)[f])
            && (f in Scalars(r.result, id) && f !in Scalars(s, id) ==>
                  exists i :: 0 <= i < |c.updates| && AsksFor(c.updates[i], id, f, Scalars(r.result, id)[f]))
            && (forall i, v :: 0 <= i < |c.updates| && r.ok && AsksFor(c.updates[i], id, f, v) && !c.updates[i].value.ignoreFailure ==>
                  f in Scalars(r.result, id) && Scalars(r.result, id)[f] == v)
  {
    hide Adjust, UpdateAll, Indexed, AllBacked, AsksFor, Adds;
    UpdatesLand(s, c.updates, c.plugin, id, f);
    if c.adjust.Some? {
      var r := Adjust(s, c.adjust.value, c.plugin);
      AdjustStep(s, c.adjust.value, c.plugin);
      AdjustIndexed(s, c.adjust.value, c.plugin);
      assert SameUpdates(s, r.result);
      UpdatesLand(r.result, c.updates, c.plugin, id, f);
    }
  }

  // ---------------------------------------------------------------- when a reply succeeds

  ghost predicate ListGranted(s: Result, k: Kind, es: seq<Entry>)
  {
    || es == []
    || (&& Without(ListOf(s, k), Removals(es)) + Additions(es) != []
        && (s.conId in s.owners ==> Untaken(Collect(s, k), es)))
  }

  /** The container has an owners entry by the time its limits are claimed. */
  ghost predicate TrackedThen(s: Result, a: Adjustment)
  {
    || s.conId in s.owners
    || (a.linux.Some? && (a.linux.value.cgroupsPath != "" ||
                          (a.linux.value.resources.Some? && SetsScalar(a.linux.value.resources.value))))
  }

  ghost predicate RlimitsGranted(s: Result, a: Adjustment)
  {
    TrackedThen(s, a) ==> DistinctKeys(a.rlimits) && Keys(a.rlimits) !! Owned(Touched(OwnerOf(s, s.conId)), Rlimits).Keys
  }

  ghost predicate LinuxGranted(s: Result, l: LinuxAdjustment)
  {
    && ListGranted(s, Devices, l.devices)
    && (l.resources.Some? ==> Granted(s, s.conId, l.resources.value))
    && (l.cgroupsPath != "" ==> CgroupsPath !in SlotsOf(OwnerOf(s, s.conId)))
  }

  ghost predicate AdjustGranted(s: Result, a: Adjustment)
  {
    && a.annotationsOk && !a.hooks
    && ListGranted(s, Mounts, a.mounts) && ListGranted(s, Env, a.env)
    && (a.linux.Some? ==> LinuxGranted(s, a.linux.value))
    && RlimitsGranted(s, a)
  }

  /** Between two states of the container being handled nothing is different but one list and its owners. */
  ghost predicate OnlyOwned(s: Result, t: Result, k: Kind)
  {
    && OnlyList(s, t, k)
    && (t.conId in t.owners <==> s.conId in s.owners)
    && SlotsOf(OwnerOf(t, t.conId)) == SlotsOf(OwnerOf(s, s.conId))
    && forall x :: x != k ==> Owned(Touched(OwnerOf(t, t.conId)), x) == Owned(Touched(OwnerOf(s, s.conId)), x)
  }

  lemma ListSucceeds(s: Result, k: Kind, es: seq<Entry>, plugin: string)
    requires k in ADJUSTED
    ensures var r := AdjustList(s, k, es, plugin);
            (r.ok <==> ListGranted(s, k, es)) && OnlyOwned(s, r.result, k)
  {
    hide Adjusted, Begun, Without, Additions, Removals, Untaken;
    AdjustedResult(Collect(s, k), es, plugin);
  }

  lemma SameGranted(s: Result, t: Result, k: Kind, x: Kind, es: seq<Entry>)
    requires OnlyOwned(s, t, k) && x in ADJUSTED && x != k
    ensures ListGranted(t, x, es) <==> ListGranted(s, x, es)
  {
    hide Without, Additions, Removals, Untaken;
    assert Collect(t, x) == Collect(s, x);
  }

  lemma SameLinux(s: Result, t: Result, k: Kind, l: LinuxAdjustment)
    requires OnlyOwned(s, t, k) && k in {Mounts, Env}
    ensures LinuxGranted(t, l) <==> LinuxGranted(s, l)
  {
    hide ListGranted;
    SameGranted(s, t, k, Devices, l.devices);
    if l.resources.Some? {
      SameClaims(s, t, k, l.resources.value);
    }
  }

  lemma SameClaims(s: Result, t: Result, k: Kind, src: Resources)
    requires OnlyOwned(s, t, k) && k in ADJUSTED
    ensures Granted(t, t.conId, src) <==> Granted(s, s.conId, src)
  {
    hide SetsMemoryOrCpu;
    assert k != HugepageLimits && k != Unified;
  }

  /** The resources leave the slot of the path and the owners of limits, and the path those of limits. */
  lemma ResourcesSucceed(s: Result, src: Option<Resources>, plugin: string)
    ensures var r := AdjustResources(s, src, plugin);
            var t := r.result;
            && t.conId == s.conId
            && (r.ok <==> src.None? || Granted(s, s.conId, src.value))
            && (t.conId in t.owners <==> s.conId in s.owners || (src.Some? && SetsScalar(src.value)))
            && (CgroupsPath in SlotsOf(OwnerOf(t, t.conId)) <==> CgroupsPath in SlotsOf(OwnerOf(s, s.conId)))
            && Owned(Touched(OwnerOf(t, t.conId)), Rlimits) == Owned(Touched(OwnerOf(s, s.conId)), Rlimits)
  {
    hide ClaimResources, FreeScalars, FreeKeyed, SetsScalar, Reached;
    if src.Some? {
      var o := OwnerOf(s, s.conId);
      RequestGranted(o, s.adjust, src.value, plugin);
      ClaimTouches(o, s.adjust, src.value, plugin);
      ClaimKeepsLists(o, s.adjust, src.value, plugin);
      ClaimReaches(o, s.adjust, src.value, plugin, CgroupsPath);
      PathNotReached(o, src.value);
    }
  }

  lemma PathNotReached(o: Option<Owners>, src: Resources)
    ensures !Reached(o, src, CgroupsPath)
  {
    hide Free, FreeKeyed;
    assert forall i :: 0 <= i < |MEMORY_AND_CPU| ==> MEMORY_AND_CPU[i] != CgroupsPath;
  }

  lemma LinuxSucceeds(s: Result, l: LinuxAdjustment, plugin: string)
    ensures var r := AdjustLinux(s, l, plugin);
            var t := r.result;
            && (r.ok <==> LinuxGranted(s, l))
            && (r.ok ==>
                  && t.conId == s.conId
                  && (t.conId in t.owners <==> TrackedThen(s, Adjustment(true, [], [], false, Some(l), [])))
                  && Owned(Touched(OwnerOf(t, t.conId)), Rlimits) == Owned(Touched(OwnerOf(s, s.conId)), Rlimits))
  {
    hide AdjustList, AdjustResources, ListGranted, Granted, SetsScalar;
    var r1 := AdjustList(s, Devices, l.devices, plugin);
    ListSucceeds(s, Devices, l.devices, plugin);
    ResourcesSucceed(r1.result, l.resources, plugin);
    if l.resources.Some? {
      SameClaims(s, r1.result, Devices, l.resources.value);
    }
  }

  lemma RlimitsSucceed(s: Result, es: seq<Entry>, plugin: string)
    ensures AdjustRlimits(s, es, plugin).ok <==>
            (s.conId in s.owners ==> DistinctKeys(es) && Keys(es) !! Owned(Touched(OwnerOf(s, s.conId)), Rlimits).Keys)
  {
    hide AddAll, DistinctKeys, Keys;
    AddAllOwners(Collect(s, Rlimits), es, plugin);
  }

  /** An adjustment succeeds exactly if it has no hooks and its annotations are in order, every list keeps
      something and adds no key that is taken, all resources and the path are free, and the limits
      are, if owners are kept by then; all of it seen from before the reply. */
  lemma AdjustSucceeds(s: Result, a: Adjustment, plugin: string)
    ensures Adjust(s, a, plugin).ok <==> AdjustGranted(s, a)
  {
    hide AdjustList, AdjustLinux, AdjustRlimits, ListGranted, LinuxGranted, SetsScalar, DistinctKeys, Keys;
    if a.annotationsOk {
      var r1 := AdjustList(s, Mounts, a.mounts, plugin);
      ListSucceeds(s, Mounts, a.mounts, plugin);
      SameGranted(s, r1.result, Mounts, Env, a.env);
      var r2 := AdjustList(r1.result, Env, a.env, plugin);
      ListSucceeds(r1.result, Env, a.env, plugin);
      if a.linux.Some? {
        SameLinux(s, r1.result, Mounts, a.linux.value);
        SameLinux(r1.result, r2.result, Env, a.linux.value);
        LinuxSucceeds(r2.result, a.linux.value, plugin);
      }
      var r3 := if a.linux.Some? then AdjustLinux(r2.result, a.linux.value, plugin) else r2;
      RlimitsSucceed(r3.result, a.rlimits, plugin);
    }
  }

  /** Request `i` is let pass, given what those before it have left. */
  ghost predicate LetPass(s: Result, us: seq<Option<UpdateRequest>>, plugin: string, i: nat)
    requires i < |us|
  {
    && us[i].Some? && us[i].value.id != s.conId
    && (|| us[i].value.ignoreFailure || us[i].value.resources.None?
        || Granted(UpdateAll(s, us[..i], plugin).result, us[i].value.id, us[i].value.resources.value))
  }

  lemma {:induction false} UpdatesSucceed(s: Result, us: seq<Option<UpdateRequest>>, plugin: string)
    requires Indexed(s)
    ensures Indexed(UpdateAll(s, us, plugin).result) && UpdateAll(s, us, plugin).result.conId == s.conId
    ensures UpdateAll(s, us, plugin).ok <==> forall i :: 0 <= i < |us| ==> LetPass(s, us, plugin, i)
  {
    hide UpdateOne, Indexed, Granted;
    if us != [] {
      var m := |us| - 1;
      var r := UpdateAll(s, us[..m], plugin);
      UpdatesSucceed(s, us[..m], plugin);
      forall i | 0 <= i < m
        ensures LetPass(s, us[..m], plugin, i) <==> LetPass(s, us, plugin, i)
      {
        assert us[..m][..i] == us[..i];
      }
      OneConId(r.result, us[m], plugin);
      UpdateOneIndexed(r.result, us[m], plugin);
      OneSucceeds(r.result, us[m], plugin);
      assert LetPass(s, us, plugin, m) <==> UpdateOne(r.result, us[m], plugin).ok;
    }
  }

  lemma OneSucceeds(s: Result, u: Option<UpdateRequest>, plugin: string)
    requires Indexed(s)
    ensures UpdateOne(s, u, plugin).ok <==>
            && u.Some? && u.value.id != s.conId
            && (u.value.ignoreFailure || u.value.resources.None? || Granted(s, u.value.id, u.value.resources.value))
  {
    hide UpdateOne, Indexed, Granted, Merged, LeavesAll;
    UpdateLeaves(s, if u.Some? then u.value else UpdateRequest(s.conId, false, None), plugin);
  }

  /** A reply succeeds exactly if its plugin has a name, its event is one of the three, its adjustment is
      granted and each of its requests is let pass. */
  lemma ReplySucceeds(s: Result, c: Call)
    requires Indexed(s)
    ensures var adjusts := c.event == CreateContainer && c.adjust.Some?;
            var t := if adjusts then Adjust(s, c.adjust.value, c.plugin).result else s;
            Apply(s, c).ok <==>
            && c.plugin != "" && c.event != OtherEvent
            && (adjusts ==> AdjustGranted(s, c.adjust.value))
            && forall i :: 0 <= i < |c.updates| ==> LetPass(t, c.updates, c.plugin, i)
  {
    hide Adjust, UpdateAll, AdjustGranted, LetPass, Indexed;
    UpdatesSucceed(s, c.updates, c.plugin);
    if c.adjust.Some? {
      AdjustSucceeds(s, c.adjust.value, c.plugin);
      AdjustIndexed(s, c.adjust.value, c.plugin);
      UpdatesSucceed(Adjust(s, c.adjust.value, c.plugin).result, c.updates, c.plugin);
    }
  }
}

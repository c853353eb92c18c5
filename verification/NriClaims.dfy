/** Ownership in `pluginResult`: how a plugin's request for resources and list entries of
    a container is checked against what plugins before it have set. */
module NriClaims {
  import opened Common

  /** The scalar resources, in the order `ClaimAndCopyResources` treats them. */
  datatype Field =
    | MemLimit | MemReservation | MemSwap | MemKernel
    | MemKernelTcp | MemSwappiness | MemDisableOomKiller | MemUseHierarchy
    | CpuShares | CpuQuota | CpuPeriod | CpuRealtimeRuntime | CpuRealtimePeriod
    | CpusetCpus | CpusetMems
    | BlockioClass | RdtClass
    | CgroupsPath   // not a resource, but claimed like one

  const MEMORY_AND_CPU: seq<Field> :=
    [MemLimit, MemReservation, MemSwap, MemKernel, MemKernelTcp, MemSwappiness, MemDisableOomKiller, MemUseHierarchy,
     CpuShares, CpuQuota, CpuPeriod, CpuRealtimeRuntime, CpuRealtimePeriod, CpusetCpus, CpusetMems]

  const CLASSES: seq<Field> := [BlockioClass, RdtClass]

  /** Both realtime fields are claimed in one owner slot. */
  function Slot(f: Field): Field
  {
    if f == CpuRealtimeRuntime then CpuRealtimePeriod else f
  }

  /** The lists whose entries have owners. */
  datatype Kind = Mounts | Env | Devices | Rlimits | HugepageLimits | Unified

  datatype Entry = Entry(key: string, value: string)

  /** `owners`: which plugin set what. An empty name is an absent entry here. */
  datatype Owners = Owners(
    slots: map<Field, string>,
    mounts: map<string, string>, env: map<string, string>, devices: map<string, string>,
    rlimits: map<string, string>, hugepageLimits: map<string, string>, unified: map<string, string>)

  const NOBODY := Owners(map[], map[], map[], map[], map[], map[], map[])

  function Owned(o: Owners, k: Kind): map<string, string>
  {
    match k
    case Mounts => o.mounts
    case Env => o.env
    case Devices => o.devices
    case Rlimits => o.rlimits
    case HugepageLimits => o.hugepageLimits
    case Unified => o.unified
  }

  function WithOwned(o: Owners, k: Kind, m: map<string, string>): (r: Owners)
    ensures r.slots == o.slots
    ensures forall x :: Owned(r, x) == if x == k then m else Owned(o, x)
  {
    match k
    case Mounts => o.(mounts := m)
    case Env => o.(env := m)
    case Devices => o.(devices := m)
    case Rlimits => o.(rlimits := m)
    case HugepageLimits => o.(hugepageLimits := m)
    case Unified => o.(unified := m)
  }

  /** `nri_linux_resources`: NULL is an absent field. */
  datatype Resources = Resources(scalars: map<Field, string>, hugepages: seq<Entry>, unified: seq<Entry>)

  const NOTHING := Resources(map[], [], [])

  /** A request in progress: the container's entry in `m_owners`, if it has one, the
      resources collected so far, and whether no conflict was met. */
  datatype Claim = Claim(owner: Option<Owners>, dest: Resources, ok: bool)

  /** `m_owners[id]`, which makes an entry. */
  function Touched(o: Option<Owners>): Owners
  {
    if o.Some? then o.value else NOBODY
  }

  function ClaimField(c: Claim, f: Field, src: Resources, plugin: string): Claim
  {
    if !c.ok || f !in src.scalars then c
    else
      var o := Touched(c.owner);
      if Slot(f) in o.slots then Claim(Some(o), c.dest, false)
      else
        Claim(Some(o.(slots := o.slots[Slot(f) := plugin])),
              c.dest.(scalars := c.dest.scalars[f := src.scalars[f]]), true)
  }

  function ClaimFields(c: Claim, fs: seq<Field>, src: Resources, plugin: string): Claim
  {
    if fs == [] then c else ClaimField(ClaimFields(c, fs[..|fs| - 1], src, plugin), fs[|fs| - 1], src, plugin)
  }

  /** A keyed entry is claimed only in a container that already has an owners entry. */
  function ClaimKey(o: Option<Owners>, k: Kind, key: string, plugin: string): Option<Option<Owners>>
  {
    if o.None? then Some(o)
    else if key in Owned(o.value, k) then None
    else Some(Some(WithOwned(o.value, k, Owned(o.value, k)[key := plugin])))
  }

  /** Huge page limits and unified keys are claimed one by one, and not copied: limits because nothing
      copies them, keys because the map they would be appended to is never allocated. */
  function ClaimKeys(c: Claim, k: Kind, es: seq<Entry>, plugin: string): Claim
  {
    if es == [] then c
    else
      var d := ClaimKeys(c, k, es[..|es| - 1], plugin);
      if !d.ok then d
      else
        match ClaimKey(d.owner, k, es[|es| - 1].key, plugin)
        case None => d.(ok := false)
        case Some(o) => d.(owner := o)
  }

  /** `ClaimAndCopyResources`. */
  function ClaimResources(owner: Option<Owners>, dest: Resources, src: Resources, plugin: string): Claim
  {
    var c1 := ClaimFields(Claim(owner, dest, true), MEMORY_AND_CPU, src, plugin);
    var c2 := if c1.ok then ClaimKeys(c1, HugepageLimits, src.hugepages, plugin) else c1;
    var c3 := if c2.ok then ClaimKeys(c2, Unified, src.unified, plugin) else c2;
    if c3.ok then ClaimFields(c3, CLASSES, src, plugin) else c3
  }

  // ---------------------------------------------------------------- keys

  function Keys(es: seq<Entry>): set<string>
  {
    set e | e in es :: e.key
  }

  ghost predicate DistinctKeys(es: seq<Entry>)
  {
    forall i, j :: 0 <= i < j < |es| ==> es[i].key != es[j].key
  }

  lemma KeysSnoc(es: seq<Entry>, e: Entry)
    ensures Keys(es + [e]) == Keys(es) + {e.key}
    ensures DistinctKeys(es + [e]) <==> DistinctKeys(es) && e.key !in Keys(es)
  {
    var all := es + [e];
    assert forall x :: x in all <==> x in es || x == e;
    if e.key in Keys(es) {
      var x :| x in es && x.key == e.key;
      var i :| 0 <= i < |es| && es[i] == x;
      assert all[i].key == all[|es|].key;
    }
    assert forall i :: 0 <= i < |es| ==> all[i] == es[i] && es[i].key in Keys(es);
  }

  lemma NoKeys()
    ensures DistinctKeys([]) && Keys([]) == {}
  {
  }

  // ---------------------------------------------------------------- scalars are written once

  function SlotsOf(o: Option<Owners>): map<Field, string>
  {
    Touched(o).slots
  }

  /** Every resource collected has an owner. */
  ghost predicate Backed(o: Option<Owners>, r: map<Field, string>)
  {
    forall f :: f in r ==> Slot(f) in SlotsOf(o)
  }

  /** From one state of a container to a later one: owners and resources are only added,
      and what was added between them is the plugin's, as it asked. */
  ghost predicate Grows(o: Option<Owners>, r: map<Field, string>, o': Option<Owners>, r': map<Field, string>,
                        plugin: string, src: map<Field, string>)
  {
    && (forall g :: g in SlotsOf(o) ==> g in SlotsOf(o') && SlotsOf(o')[g] == SlotsOf(o)[g])
    && (forall g :: g in SlotsOf(o') && g !in SlotsOf(o) ==> SlotsOf(o')[g] == plugin)
    && (forall f :: f in r ==> f in r' && r'[f] == r[f])
    && (forall f :: f in r' && f !in r ==> f in src && r'[f] == src[f] && Slot(f) in SlotsOf(o') && SlotsOf(o')[Slot(f)] == plugin)
    && (o.Some? ==> o'.Some?)
  }

  ghost predicate ClaimGrows(c: Claim, c': Claim, plugin: string, src: map<Field, string>)
  {
    Backed(c'.owner, c'.dest.scalars) && Grows(c.owner, c.dest.scalars, c'.owner, c'.dest.scalars, plugin, src)
  }

  lemma FieldGrows(c: Claim, c': Claim, f: Field, src: Resources, plugin: string)
    requires Backed(c.owner, c.dest.scalars) && ClaimGrows(c, c', plugin, src.scalars)
    ensures ClaimGrows(c, ClaimField(c', f, src, plugin), plugin, src.scalars)
  {
  }

  lemma {:induction false} FieldsGrow(c: Claim, c': Claim, fs: seq<Field>, src: Resources, plugin: string)
    requires Backed(c.owner, c.dest.scalars) && ClaimGrows(c, c', plugin, src.scalars)
    ensures ClaimGrows(c, ClaimFields(c', fs, src, plugin), plugin, src.scalars)
  {
    hide ClaimGrows, ClaimField;
    if fs != [] {
      FieldsGrow(c, c', fs[..|fs| - 1], src, plugin);
      FieldGrows(c, ClaimFields(c', fs[..|fs| - 1], src, plugin), fs[|fs| - 1], src, plugin);
    }
  }

  /** Claiming resources does not touch the owners of adjusted lists. */
  ghost predicate KeepsLists(o: Option<Owners>, o': Option<Owners>)
  {
    forall k :: k != HugepageLimits && k != Unified ==> Owned(Touched(o'), k) == Owned(Touched(o), k)
  }

  lemma {:induction false} FieldsKeepLists(c: Claim, fs: seq<Field>, src: Resources, plugin: string)
    ensures forall k :: Owned(Touched(ClaimFields(c, fs, src, plugin).owner), k) == Owned(Touched(c.owner), k)
    ensures KeepsLists(c.owner, ClaimFields(c, fs, src, plugin).owner)
  {
    if fs != [] {
      FieldsKeepLists(c, fs[..|fs| - 1], src, plugin);
    }
  }

  /** Claims of keys leave everything but the owners of that kind of keys, and those only grow. */
  lemma {:induction false} KeysKeep(c: Claim, k: Kind, es: seq<Entry>, plugin: string)
    ensures var d := ClaimKeys(c, k, es, plugin);
            && d.dest == c.dest && SlotsOf(d.owner) == SlotsOf(c.owner) && (d.owner.Some? <==> c.owner.Some?)
            && (forall x :: x != k ==> Owned(Touched(d.owner), x) == Owned(Touched(c.owner), x))
            && Extends(Owned(Touched(c.owner), k), Owned(Touched(d.owner), k), plugin)
            && (k == HugepageLimits || k == Unified ==> KeepsLists(c.owner, d.owner))
  {
    if es != [] {
      KeysKeep(c, k, es[..|es| - 1], plugin);
    }
  }

  /** Owners are only added, and those added are the plugin. */
  ghost predicate Extends(m: map<string, string>, m': map<string, string>, plugin: string)
  {
    && (forall x :: x in m ==> x in m' && m'[x] == m[x])
    && (forall x :: x in m' && x !in m ==> m'[x] == plugin)
  }

  /** So it is with the owners of page sizes and of unified keys. */
  ghost predicate KeepsKeys(o: Option<Owners>, o': Option<Owners>, plugin: string)
  {
    && Extends(Touched(o).hugepageLimits, Touched(o').hugepageLimits, plugin)
    && Extends(Touched(o).unified, Touched(o').unified, plugin)
  }

  /** Claims of keyed entries do not matter for scalars. */
  lemma QuietGrows(c: Claim, d: Claim, e: Claim, plugin: string, src: map<Field, string>)
    requires ClaimGrows(c, d, plugin, src)
    requires e.dest.scalars == d.dest.scalars && SlotsOf(e.owner) == SlotsOf(d.owner) && (e.owner.Some? <==> d.owner.Some?)
    ensures ClaimGrows(c, e, plugin, src)
  {
  }

  lemma KeepsTrans(o: Option<Owners>, p: Option<Owners>, q: Option<Owners>)
    requires KeepsLists(o, p) && KeepsLists(p, q)
    ensures KeepsLists(o, q)
  {
    hide Owned, Touched;
    forall k | k != HugepageLimits && k != Unified
      ensures Owned(Touched(q), k) == Owned(Touched(o), k)
    {
      assert Owned(Touched(p), k) == Owned(Touched(o), k);
    }
  }

  lemma ClaimKeepsLists(owner: Option<Owners>, dest: Resources, src: Resources, plugin: string)
    ensures KeepsLists(owner, ClaimResources(owner, dest, src, plugin).owner)
  {
    hide ClaimFields, ClaimKeys, KeepsLists, SlotsOf;
    var c := Claim(owner, dest, true);
    var c1 := ClaimFields(c, MEMORY_AND_CPU, src, plugin);
    FieldsKeepLists(c, MEMORY_AND_CPU, src, plugin);
    if c1.ok {
      var c2 := ClaimKeys(c1, HugepageLimits, src.hugepages, plugin);
      KeysKeep(c1, HugepageLimits, src.hugepages, plugin);
      KeepsTrans(owner, c1.owner, c2.owner);
      if c2.ok {
        var c3 := ClaimKeys(c2, Unified, src.unified, plugin);
        KeysKeep(c2, Unified, src.unified, plugin);
        KeepsTrans(owner, c2.owner, c3.owner);
        if c3.ok {
          FieldsKeepLists(c3, CLASSES, src, plugin);
          KeepsTrans(owner, c3.owner, ClaimFields(c3, CLASSES, src, plugin).owner);
        }
      }
    }
  }

  /** A request, even one that stops at a conflict, overwrites no resource and no owner. */
  lemma ClaimIsWriteOnce(owner: Option<Owners>, dest: Resources, src: Resources, plugin: string)
    requires Backed(owner, dest.scalars)
    ensures ClaimGrows(Claim(owner, dest, true), ClaimResources(owner, dest, src, plugin), plugin, src.scalars)
    ensures KeepsLists(owner, ClaimResources(owner, dest, src, plugin).owner)
  {
    hide ClaimFields, ClaimKeys, KeepsLists, ClaimGrows, SlotsOf;
    ClaimKeepsLists(owner, dest, src, plugin);
    var c := Claim(owner, dest, true);
    var c1 := ClaimFields(c, MEMORY_AND_CPU, src, plugin);
    GrowsRefl(c, plugin, src.scalars);
    FieldsGrow(c, c, MEMORY_AND_CPU, src, plugin);
    if c1.ok {
      var c2 := ClaimKeys(c1, HugepageLimits, src.hugepages, plugin);
      KeysKeep(c1, HugepageLimits, src.hugepages, plugin);
      QuietGrows(c, c1, c2, plugin, src.scalars);
      if c2.ok {
        var c3 := ClaimKeys(c2, Unified, src.unified, plugin);
        KeysKeep(c2, Unified, src.unified, plugin);
        QuietGrows(c, c2, c3, plugin, src.scalars);
        if c3.ok {
          FieldsGrow(c, c3, CLASSES, src, plugin);
        }
      }
    }
  }

  lemma GrowsRefl(c: Claim, plugin: string, src: map<Field, string>)
    requires Backed(c.owner, c.dest.scalars)
    ensures ClaimGrows(c, c, plugin, src)
  {
  }

  // ---------------------------------------------------------------- when a request succeeds

  /** Among the fields `fs`, the request sets one with owner slot `g`. */
  ghost predicate Sets(fs: seq<Field>, src: map<Field, string>, g: Field)
  {
    exists i :: 0 <= i < |fs| && fs[i] in src && Slot(fs[i]) == g
  }

  /** The fields `fs` that a request sets have no owner, and no two of them share a slot. */
  ghost predicate Free(slots: map<Field, string>, fs: seq<Field>, src: map<Field, string>)
  {
    && (forall i :: 0 <= i < |fs| && fs[i] in src ==> Slot(fs[i]) !in slots)
    && (forall i, j :: 0 <= i < j < |fs| && fs[i] in src && fs[j] in src ==> Slot(fs[i]) != Slot(fs[j]))
  }

  lemma SetsLast(fs: seq<Field>, src: map<Field, string>, g: Field)
    requires fs != []
    ensures var n := |fs| - 1;
            Sets(fs, src, g) <==> Sets(fs[..n], src, g) || (fs[n] in src && Slot(fs[n]) == g)
  {
    var front := fs[..|fs| - 1];
    if i :| 0 <= i < |front| && front[i] in src && Slot(front[i]) == g {
      assert fs[i] == front[i];
    }
    if i :| 0 <= i < |fs| && fs[i] in src && Slot(fs[i]) == g {
      assert i < |front| ==> front[i] == fs[i];
    }
  }

  lemma FreeLast(slots: map<Field, string>, fs: seq<Field>, src: map<Field, string>)
    requires fs != []
    ensures var n := |fs| - 1;
            Free(slots, fs, src) <==>
            Free(slots, fs[..n], src) && (fs[n] in src ==> Slot(fs[n]) !in slots && !Sets(fs[..n], src, Slot(fs[n])))
  {
    var n := |fs| - 1;
    var front := fs[..n];
    assert forall i :: 0 <= i < n ==> front[i] == fs[i];
  }

  lemma {:induction false} FieldsSucceed(c: Claim, fs: seq<Field>, src: Resources, plugin: string)
    requires c.ok
    ensures var d := ClaimFields(c, fs, src, plugin);
            && (d.ok <==> Free(SlotsOf(c.owner), fs, src.scalars))
            && (d.ok ==> forall g :: g in SlotsOf(d.owner) <==> g in SlotsOf(c.owner) || Sets(fs, src.scalars, g))
  {
    hide Sets, Free;
    if fs == [] {
      NoFields(SlotsOf(c.owner), src.scalars);
    } else {
      var n := |fs| - 1;
      FieldsSucceed(c, fs[..n], src, plugin);
      FreeLast(SlotsOf(c.owner), fs, src.scalars);
      forall g {
        SetsLast(fs, src.scalars, g);
      }
    }
  }

  lemma NoFields(slots: map<Field, string>, src: map<Field, string>)
    ensures Free(slots, [], src) && forall g :: !Sets([], src, g)
  {
  }

  /** Because both realtime fields share a slot, a request for both never succeeds, not
      even the first one. */
  lemma RealtimeClash(owner: Option<Owners>, dest: Resources, src: Resources, plugin: string)
    requires CpuRealtimeRuntime in src.scalars && CpuRealtimePeriod in src.scalars
    ensures !ClaimResources(owner, dest, src, plugin).ok
  {
    hide ClaimFields, ClaimKeys;
    FieldsSucceed(Claim(owner, dest, true), MEMORY_AND_CPU, src, plugin);
    assert MEMORY_AND_CPU[11] == CpuRealtimeRuntime && MEMORY_AND_CPU[12] == CpuRealtimePeriod;
  }

  // -- keyed entries

  /** Keys that can be claimed: none twice, none owned. */
  ghost predicate FreeKeys(o: Owners, k: Kind, es: seq<Entry>)
  {
    DistinctKeys(es) && Keys(es) !! Owned(o, k).Keys
  }

  lemma FreeKeysLast(o: Owners, k: Kind, es: seq<Entry>)
    requires es != []
    ensures var n := |es| - 1;
            FreeKeys(o, k, es) <==>
            FreeKeys(o, k, es[..n]) && es[n].key !in Owned(o, k) && es[n].key !in Keys(es[..n])
    ensures Keys(es) == Keys(es[..|es| - 1]) + {es[|es| - 1].key}
  {
    hide Keys, DistinctKeys;
    var n := |es| - 1;
    assert es == es[..n] + [es[n]];
    KeysSnoc(es[..n], es[n]);
  }

  lemma NoFreeKeys(o: Owners, k: Kind)
    ensures FreeKeys(o, k, []) && Keys([]) == {}
  {
    NoKeys();
  }

  lemma {:induction false} KeysGranted(c: Claim, k: Kind, es: seq<Entry>, plugin: string)
    requires c.ok
    ensures var d := ClaimKeys(c, k, es, plugin);
            && (c.owner.None? ==> d == c)
            && (c.owner.Some? ==>
                  && d.owner.Some? && (d.ok <==> FreeKeys(c.owner.value, k, es))
                  && (d.ok ==> Owned(d.owner.value, k).Keys == Owned(c.owner.value, k).Keys + Keys(es)))
  {
    hide FreeKeys, Keys;
    if es == [] {
      NoFreeKeys(Touched(c.owner), k);
    } else {
      KeysGranted(c, k, es[..|es| - 1], plugin);
      FreeKeysLast(Touched(c.owner), k, es);
    }
  }

  // -- which requests make an owners entry

  ghost predicate SetsSome(fs: seq<Field>, src: map<Field, string>)
  {
    exists i :: 0 <= i < |fs| && fs[i] in src
  }

  lemma {:induction false} FieldsTouch(c: Claim, fs: seq<Field>, src: Resources, plugin: string)
    requires c.ok
    ensures var d := ClaimFields(c, fs, src, plugin);
            && (d.owner.Some? <==> c.owner.Some? || SetsSome(fs, src.scalars))
            && (!SetsSome(fs, src.scalars) ==> d == c)
  {
    if fs != [] {
      var n := |fs| - 1;
      FieldsTouch(c, fs[..n], src, plugin);
      if i :| 0 <= i < n && fs[..n][i] in src.scalars {
        assert fs[i] in src.scalars;
      }
      if i :| 0 <= i < n && fs[i] in src.scalars {
        assert fs[..n][i] in src.scalars;
      }
    }
  }

  /** A memory or CPU setting is among the scalars. */
  ghost predicate SetsMemoryOrCpu(src: Resources)
  {
    exists f :: f in src.scalars && f !in {BlockioClass, RdtClass, CgroupsPath}
  }

  ghost predicate SetsScalar(src: Resources)
  {
    exists f :: f in src.scalars && f != CgroupsPath
  }

  lemma SetsIs(src: Resources)
    ensures SetsSome(MEMORY_AND_CPU, src.scalars) <==> SetsMemoryOrCpu(src)
    ensures SetsScalar(src) <==> SetsMemoryOrCpu(src) || SetsSome(CLASSES, src.scalars)
  {
    hide Rank;
    if i :| 0 <= i < 15 && MEMORY_AND_CPU[i] in src.scalars {
      NotClass(i);
    }
    if f :| f in src.scalars && f !in {BlockioClass, RdtClass, CgroupsPath} {
      assert MEMORY_AND_CPU[Rank(f)] == f;
    }
    assert CLASSES[0] == BlockioClass && CLASSES[1] == RdtClass;
  }

  /** A request leaves an owners entry exactly if there was one or it sets a scalar. */
  lemma ClaimTouches(owner: Option<Owners>, dest: Resources, src: Resources, plugin: string)
    ensures ClaimResources(owner, dest, src, plugin).owner.Some? <==> owner.Some? || SetsScalar(src)
  {
    hide ClaimFields, ClaimKeys, SetsSome, SetsScalar, SetsMemoryOrCpu;
    SetsIs(src);
    var c := Claim(owner, dest, true);
    var c1 := ClaimFields(c, MEMORY_AND_CPU, src, plugin);
    FieldsTouch(c, MEMORY_AND_CPU, src, plugin);
    if c1.ok {
      var c2 := ClaimKeys(c1, HugepageLimits, src.hugepages, plugin);
      KeysGranted(c1, HugepageLimits, src.hugepages, plugin);
      if c2.ok {
        var c3 := ClaimKeys(c2, Unified, src.unified, plugin);
        KeysGranted(c2, Unified, src.unified, plugin);
        if c3.ok {
          FieldsTouch(c3, CLASSES, src, plugin);
        }
      }
    }
  }

  // -- the whole request

  /** No scalar asked for has an owner, and not both realtime fields are asked for. */
  ghost predicate FreeScalars(owner: Option<Owners>, src: Resources)
  {
    && (forall f :: f in src.scalars && f != CgroupsPath ==> Slot(f) !in SlotsOf(owner))
    && !(CpuRealtimeRuntime in src.scalars && CpuRealtimePeriod in src.scalars)
  }

  /** Page sizes and unified keys are free too, if the container has an owners entry by then. */
  ghost predicate FreeKeyed(owner: Option<Owners>, src: Resources)
  {
    owner.Some? || SetsMemoryOrCpu(src) ==>
      && FreeKeys(Touched(owner), HugepageLimits, src.hugepages)
      && FreeKeys(Touched(owner), Unified, src.unified)
  }

  /** Every request is granted exactly when all it asks for is free. */
  lemma RequestGranted(owner: Option<Owners>, dest: Resources, src: Resources, plugin: string)
    ensures ClaimResources(owner, dest, src, plugin).ok <==> FreeScalars(owner, src) && FreeKeyed(owner, src)
  {
    hide ClaimFields, ClaimKeys, Free, Sets, SetsSome, SetsMemoryOrCpu, FreeKeys, SlotsOf, Owned;
    var c := Claim(owner, dest, true);
    var c1 := ClaimFields(c, MEMORY_AND_CPU, src, plugin);
    FieldsSucceed(c, MEMORY_AND_CPU, src, plugin);
    FreeMemoryAndCpu(SlotsOf(owner), src.scalars);
    if c1.ok {
      KeyedGranted(owner, dest, src, plugin);
      var c2 := ClaimKeys(c1, HugepageLimits, src.hugepages, plugin);
      KeysKeep(c1, HugepageLimits, src.hugepages, plugin);
      if c2.ok {
        var c3 := ClaimKeys(c2, Unified, src.unified, plugin);
        KeysKeep(c2, Unified, src.unified, plugin);
        if c3.ok {
          FieldsSucceed(c3, CLASSES, src, plugin);
          FreeClasses(SlotsOf(c3.owner), src.scalars);
          NoClassSet(src.scalars);
          assert forall f :: f in {BlockioClass, RdtClass} ==> Slot(f) == f && (f in SlotsOf(c1.owner) <==> f in SlotsOf(owner));
        }
      }
    }
  }

  lemma KeyedGranted(owner: Option<Owners>, dest: Resources, src: Resources, plugin: string)
    ensures var c1 := ClaimFields(Claim(owner, dest, true), MEMORY_AND_CPU, src, plugin);
            var c2 := ClaimKeys(c1, HugepageLimits, src.hugepages, plugin);
            c1.ok ==> (FreeKeyed(owner, src) <==> c2.ok && ClaimKeys(c2, Unified, src.unified, plugin).ok)
  {
    hide ClaimFields, ClaimKeys, SetsSome, SetsMemoryOrCpu;
    var c := Claim(owner, dest, true);
    var c1 := ClaimFields(c, MEMORY_AND_CPU, src, plugin);
    FieldsTouch(c, MEMORY_AND_CPU, src, plugin);
    SetsIs(src);
    FieldsKeepLists(c, MEMORY_AND_CPU, src, plugin);
    assert Owned(Touched(c1.owner), HugepageLimits) == Owned(Touched(owner), HugepageLimits);
    assert Owned(Touched(c1.owner), Unified) == Owned(Touched(owner), Unified);
    if c1.ok {
      KeysGranted(c1, HugepageLimits, src.hugepages, plugin);
      KeysKeep(c1, HugepageLimits, src.hugepages, plugin);
      var c2 := ClaimKeys(c1, HugepageLimits, src.hugepages, plugin);
      assert Owned(Touched(c2.owner), Unified) == Owned(Touched(c1.owner), Unified);
      if c2.ok {
        KeysGranted(c2, Unified, src.unified, plugin);
      }
    }
  }

  lemma NoClassSet(src: map<Field, string>)
    ensures !Sets(MEMORY_AND_CPU, src, BlockioClass) && !Sets(MEMORY_AND_CPU, src, RdtClass)
  {
    forall i: nat | i < 15 {
      NotClass(i);
    }
  }

  function Rank(f: Field): (r: nat)
    ensures r < 15 ==> MEMORY_AND_CPU[r] == f
    ensures r >= 15 ==> f == BlockioClass || f == RdtClass || f == CgroupsPath
  {
    match f
    case MemLimit => 0
    case MemReservation => 1
    case MemSwap => 2
    case MemKernel => 3
    case MemKernelTcp => 4
    case MemSwappiness => 5
    case MemDisableOomKiller => 6
    case MemUseHierarchy => 7
    case CpuShares => 8
    case CpuQuota => 9
    case CpuPeriod => 10
    case CpuRealtimeRuntime => 11
    case CpuRealtimePeriod => 12
    case CpusetCpus => 13
    case CpusetMems => 14
    case BlockioClass => 15
    case RdtClass => 16
    case CgroupsPath => 17
  }

  lemma RankOf(i: nat)
    requires i < 15
    ensures Rank(MEMORY_AND_CPU[i]) == i
  {
  }

  lemma FreeMemoryAndCpu(slots: map<Field, string>, src: map<Field, string>)
    ensures Free(slots, MEMORY_AND_CPU, src) <==>
            && (forall f :: f in src && f !in {BlockioClass, RdtClass, CgroupsPath} ==> Slot(f) !in slots)
            && !(CpuRealtimeRuntime in src && CpuRealtimePeriod in src)
  {
    hide Rank;
    var fs := MEMORY_AND_CPU;
    forall i | 0 <= i < 15
      ensures Rank(fs[i]) == i && fs[i] !in {BlockioClass, RdtClass, CgroupsPath}
    {
      RankOf(i);
      NotClass(i);
    }
    assert fs[11] == CpuRealtimeRuntime && fs[12] == CpuRealtimePeriod;
    if Free(slots, fs, src) {
      forall f | f in src && f !in {BlockioClass, RdtClass, CgroupsPath}
        ensures Slot(f) !in slots
      {
        assert fs[Rank(f)] == f;
      }
    }
  }

  lemma NotClass(i: nat)
    requires i < 15
    ensures MEMORY_AND_CPU[i] !in {BlockioClass, RdtClass, CgroupsPath}
  {
  }

  lemma FreeClasses(slots: map<Field, string>, src: map<Field, string>)
    ensures Free(slots, CLASSES, src) <==> forall f :: f in src && (f == BlockioClass || f == RdtClass) ==> f !in slots
  {
    assert CLASSES[0] == BlockioClass && CLASSES[1] == RdtClass;
  }

  // ---------------------------------------------------------------- what a request leaves

  /** Field `i` is asked for, has slot `g`, and all fields up to it are free. */
  ghost predicate ClaimsAt(slots: map<Field, string>, fs: seq<Field>, src: map<Field, string>, g: Field, i: int)
  {
    0 <= i < |fs| && fs[i] in src && Slot(fs[i]) == g && Free(slots, fs[..i + 1], src)
  }

  /** The request gets as far as claiming slot `g`. */
  ghost predicate Claims(slots: map<Field, string>, fs: seq<Field>, src: map<Field, string>, g: Field)
  {
    exists i :: ClaimsAt(slots, fs, src, g, i)
  }

  lemma ClaimsFront(slots: map<Field, string>, fs: seq<Field>, src: map<Field, string>, g: Field, i: int)
    requires 0 <= i < |fs| - 1
    ensures ClaimsAt(slots, fs[..|fs| - 1], src, g, i) <==> ClaimsAt(slots, fs, src, g, i)
  {
    hide Free;
    assert fs[..|fs| - 1][..i + 1] == fs[..i + 1];
  }

  lemma ClaimsAtLast(slots: map<Field, string>, fs: seq<Field>, src: map<Field, string>, g: Field)
    requires fs != []
    ensures var n := |fs| - 1;
            ClaimsAt(slots, fs, src, g, n) <==> fs[n] in src && Slot(fs[n]) == g && Free(slots, fs, src)
  {
    hide Free;
    assert fs[..|fs| - 1 + 1] == fs;
  }

  lemma ClaimsLast(slots: map<Field, string>, fs: seq<Field>, src: map<Field, string>, g: Field)
    requires fs != []
    ensures var n := |fs| - 1;
            Claims(slots, fs, src, g) <==> Claims(slots, fs[..n], src, g) || ClaimsAt(slots, fs, src, g, n)
  {
    hide ClaimsAt;
    var n := |fs| - 1;
    ClaimsRange(slots, fs, src, g);
    ClaimsRange(slots, fs[..n], src, g);
    forall i | 0 <= i < n
      ensures ClaimsAt(slots, fs[..n], src, g, i) <==> ClaimsAt(slots, fs, src, g, i)
    {
      ClaimsFront(slots, fs, src, g, i);
    }
  }

  lemma ClaimsRange(slots: map<Field, string>, fs: seq<Field>, src: map<Field, string>, g: Field)
    ensures forall i :: ClaimsAt(slots, fs, src, g, i) ==> 0 <= i < |fs|
  {
  }

  lemma {:induction false} FieldsClaim(c: Claim, fs: seq<Field>, src: Resources, plugin: string, g: Field)
    requires c.ok
    ensures g in SlotsOf(ClaimFields(c, fs, src, plugin).owner) <==>
            g in SlotsOf(c.owner) || Claims(SlotsOf(c.owner), fs, src.scalars, g)
  {
    hide Free, Sets, Claims, ClaimsAt;
    if fs == [] {
      NoClaims(SlotsOf(c.owner), src.scalars, g);
    } else {
      var n := |fs| - 1;
      FieldsClaim(c, fs[..n], src, plugin, g);
      FieldsSucceed(c, fs[..n], src, plugin);
      FieldsSucceed(c, fs, src, plugin);
      ClaimsLast(SlotsOf(c.owner), fs, src.scalars, g);
      ClaimsAtLast(SlotsOf(c.owner), fs, src.scalars, g);
    }
  }

  lemma NoClaims(slots: map<Field, string>, src: map<Field, string>, g: Field)
    ensures !Claims(slots, [], src, g)
  {
  }

  /** Slot `g` is reached before the first conflict, in the order the request is treated. */
  ghost predicate Reached(owner: Option<Owners>, src: Resources, g: Field)
  {
    || Claims(SlotsOf(owner), MEMORY_AND_CPU, src.scalars, g)
    || (&& Free(SlotsOf(owner), MEMORY_AND_CPU, src.scalars) && FreeKeyed(owner, src)
        && Claims(SlotsOf(owner), CLASSES, src.scalars, g))
  }

  /** A request comes to own exactly the slots it reaches. */
  lemma ClaimReaches(owner: Option<Owners>, dest: Resources, src: Resources, plugin: string, g: Field)
    ensures g in SlotsOf(ClaimResources(owner, dest, src, plugin).owner) <==> g in SlotsOf(owner) || Reached(owner, src, g)
  {
    hide ClaimFields, ClaimKeys, Free, Claims, Sets, FreeKeyed, SlotsOf;
    var c := Claim(owner, dest, true);
    var c1 := ClaimFields(c, MEMORY_AND_CPU, src, plugin);
    FieldsClaim(c, MEMORY_AND_CPU, src, plugin, g);
    FieldsSucceed(c, MEMORY_AND_CPU, src, plugin);
    if c1.ok {
      KeyedGranted(owner, dest, src, plugin);
      var c2 := ClaimKeys(c1, HugepageLimits, src.hugepages, plugin);
      KeysKeep(c1, HugepageLimits, src.hugepages, plugin);
      if c2.ok {
        var c3 := ClaimKeys(c2, Unified, src.unified, plugin);
        KeysKeep(c2, Unified, src.unified, plugin);
        if c3.ok {
          FieldsClaim(c3, CLASSES, src, plugin, g);
          NoClassSet(src.scalars);
          SameClasses(SlotsOf(owner), SlotsOf(c3.owner), src.scalars, g);
        }
      }
    }
  }

  lemma SameClasses(slots: map<Field, string>, slots': map<Field, string>, src: map<Field, string>, g: Field)
    requires forall f :: f in CLASSES ==> (f in slots <==> f in slots')
    ensures Claims(slots, CLASSES, src, g) <==> Claims(slots', CLASSES, src, g)
  {
    hide Free;
    SameFree(slots, slots', src, 0);
    SameFree(slots, slots', src, 1);
    assert forall i :: ClaimsAt(slots, CLASSES, src, g, i) <==> ClaimsAt(slots', CLASSES, src, g, i);
  }

  lemma SameFree(slots: map<Field, string>, slots': map<Field, string>, src: map<Field, string>, i: nat)
    requires i < |CLASSES| && forall f :: f in CLASSES ==> (f in slots <==> f in slots')
    ensures Free(slots, CLASSES[..i + 1], src) <==> Free(slots', CLASSES[..i + 1], src)
  {
    var fs := CLASSES[..i + 1];
    assert forall j :: 0 <= j < |fs| ==> fs[j] == CLASSES[j] && fs[j] in CLASSES && Slot(fs[j]) == fs[j];
  }

  /** Every slot a request comes to own has a collected scalar beside it. */
  ghost predicate Paired(o: Option<Owners>, o': Option<Owners>, r': map<Field, string>)
  {
    forall g :: g in SlotsOf(o') && g !in SlotsOf(o) ==> exists f :: f in r' && Slot(f) == g
  }

  lemma FieldPaired(o: Option<Owners>, c: Claim, f: Field, src: Resources, plugin: string)
    requires Paired(o, c.owner, c.dest.scalars)
    ensures Paired(o, ClaimField(c, f, src, plugin).owner, ClaimField(c, f, src, plugin).dest.scalars)
  {
    var d := ClaimField(c, f, src, plugin);
    forall g | g in SlotsOf(d.owner) && g !in SlotsOf(o)
      ensures exists x :: x in d.dest.scalars && Slot(x) == g
    {
      if g in SlotsOf(c.owner) {
        var x :| x in c.dest.scalars && Slot(x) == g;
        assert x in d.dest.scalars;
      } else {
        assert f in d.dest.scalars && Slot(f) == g;
      }
    }
  }

  lemma {:induction false} FieldsPaired(o: Option<Owners>, c: Claim, fs: seq<Field>, src: Resources, plugin: string)
    requires Paired(o, c.owner, c.dest.scalars)
    ensures Paired(o, ClaimFields(c, fs, src, plugin).owner, ClaimFields(c, fs, src, plugin).dest.scalars)
  {
    hide Paired, ClaimField;
    if fs != [] {
      FieldsPaired(o, c, fs[..|fs| - 1], src, plugin);
      FieldPaired(o, ClaimFields(c, fs[..|fs| - 1], src, plugin), fs[|fs| - 1], src, plugin);
    }
  }

  lemma ClaimPaired(owner: Option<Owners>, dest: Resources, src: Resources, plugin: string)
    ensures Paired(owner, ClaimResources(owner, dest, src, plugin).owner, ClaimResources(owner, dest, src, plugin).dest.scalars)
  {
    hide ClaimFields, ClaimKeys, SlotsOf;
    var c := Claim(owner, dest, true);
    var c1 := ClaimFields(c, MEMORY_AND_CPU, src, plugin);
    FieldsPaired(owner, c, MEMORY_AND_CPU, src, plugin);
    if c1.ok {
      var c2 := ClaimKeys(c1, HugepageLimits, src.hugepages, plugin);
      KeysKeep(c1, HugepageLimits, src.hugepages, plugin);
      if c2.ok {
        var c3 := ClaimKeys(c2, Unified, src.unified, plugin);
        KeysKeep(c2, Unified, src.unified, plugin);
        if c3.ok {
          FieldsPaired(owner, c3, CLASSES, src, plugin);
        }
      }
    }
  }

  /** The scalars of `r` with those of the request among `fs` written over them. */
  ghost predicate Merged(r: map<Field, string>, fs: set<Field>, src: map<Field, string>, r': map<Field, string>)
  {
    && (forall f :: f in r' <==> f in r || (f in fs && f in src))
    && (forall f :: f in r' ==> r'[f] == if f in fs && f in src then src[f] else r[f])
  }

  function FieldSet(fs: seq<Field>): set<Field>
  {
    set f | f in fs
  }

  lemma {:induction false} FieldsCollect(c: Claim, fs: seq<Field>, src: Resources, plugin: string)
    requires c.ok
    ensures var d := ClaimFields(c, fs, src, plugin);
            && (d.ok ==> Merged(c.dest.scalars, FieldSet(fs), src.scalars, d.dest.scalars))
            && d.dest.unified == c.dest.unified && d.dest.hugepages == c.dest.hugepages
  {
    if fs != [] {
      var n := |fs| - 1;
      FieldsCollect(c, fs[..n], src, plugin);
      assert FieldSet(fs) == FieldSet(fs[..n]) + {fs[n]} by {
        assert fs == fs[..n] + [fs[n]];
      }
    }
  }

  /** A granted request leaves its scalars, and neither huge page limits nor unified keys. */
  lemma GrantedIsCollected(owner: Option<Owners>, dest: Resources, src: Resources, plugin: string)
    ensures var d := ClaimResources(owner, dest, src, plugin);
            d.ok ==> Merged(dest.scalars, src.scalars.Keys - {CgroupsPath}, src.scalars, d.dest.scalars)
  {
    hide ClaimFields, ClaimKeys, Merged;
    var c := Claim(owner, dest, true);
    var d := ClaimResources(owner, dest, src, plugin);
    if d.ok {
      var c1 := ClaimFields(c, MEMORY_AND_CPU, src, plugin);
      FieldsCollect(c, MEMORY_AND_CPU, src, plugin);
      KeysKeep(c1, HugepageLimits, src.hugepages, plugin);
      var c2 := ClaimKeys(c1, HugepageLimits, src.hugepages, plugin);
      KeysKeep(c2, Unified, src.unified, plugin);
      FieldsCollect(ClaimKeys(c2, Unified, src.unified, plugin), CLASSES, src, plugin);
      AllFields(dest.scalars, src.scalars, c1.dest.scalars, d.dest.scalars);
    }
  }

  /** No request collects huge page limits or unified keys, granted or not. */
  lemma KeyedNotCollected(owner: Option<Owners>, dest: Resources, src: Resources, plugin: string)
    ensures var d := ClaimResources(owner, dest, src, plugin);
            d.dest.hugepages == dest.hugepages && d.dest.unified == dest.unified
  {
    hide ClaimFields, ClaimKeys, Merged;
    var c := Claim(owner, dest, true);
    var c1 := ClaimFields(c, MEMORY_AND_CPU, src, plugin);
    FieldsCollect(c, MEMORY_AND_CPU, src, plugin);
    KeysKeep(c1, HugepageLimits, src.hugepages, plugin);
    var c2 := ClaimKeys(c1, HugepageLimits, src.hugepages, plugin);
    KeysKeep(c2, Unified, src.unified, plugin);
    if c1.ok && c2.ok && ClaimKeys(c2, Unified, src.unified, plugin).ok {
      FieldsCollect(ClaimKeys(c2, Unified, src.unified, plugin), CLASSES, src, plugin);
    }
  }

  /** The resources hold what the request asks for, beside what they held before. */
  ghost predicate LeavesAll(dest: Resources, src: Resources, dest': Resources)
  {
    && Merged(dest.scalars, src.scalars.Keys - {CgroupsPath}, src.scalars, dest'.scalars)
    && dest'.hugepages == dest.hugepages + src.hugepages
    && dest'.unified == dest.unified + src.unified
  }

  /** A granted request leaves all it asks for exactly if it has no huge page limits and no unified keys. */
  lemma LeavesAllIff(owner: Option<Owners>, dest: Resources, src: Resources, plugin: string)
    ensures var d := ClaimResources(owner, dest, src, plugin);
            d.ok ==> (LeavesAll(dest, src, d.dest) <==> src.hugepages == [] && src.unified == [])
  {
    hide ClaimResources, Merged;
    GrantedIsCollected(owner, dest, src, plugin);
    KeyedNotCollected(owner, dest, src, plugin);
    Longer(dest.hugepages, src.hugepages);
    Longer(dest.unified, src.unified);
  }

  lemma Longer<T>(a: seq<T>, b: seq<T>)
    ensures a == a + b <==> b == []
  {
    if b != [] {
      assert |a + b| > |a|;
    }
  }

  lemma ClaimKeepsKeys(owner: Option<Owners>, dest: Resources, src: Resources, plugin: string)
    ensures KeepsKeys(owner, ClaimResources(owner, dest, src, plugin).owner, plugin)
  {
    hide ClaimFields, ClaimKeys, KeepsLists, SlotsOf;
    var c := Claim(owner, dest, true);
    var c1 := ClaimFields(c, MEMORY_AND_CPU, src, plugin);
    var c2 := ClaimKeys(c1, HugepageLimits, src.hugepages, plugin);
    var c3 := ClaimKeys(c2, Unified, src.unified, plugin);
    FieldsKeepKeys(c, MEMORY_AND_CPU, src, plugin);
    OneKindExtends(c1, HugepageLimits, src.hugepages, plugin);
    OneKindExtends(c2, Unified, src.unified, plugin);
    FieldsKeepKeys(c3, CLASSES, src, plugin);
  }

  lemma FieldsKeepKeys(c: Claim, fs: seq<Field>, src: Resources, plugin: string)
    ensures var d := ClaimFields(c, fs, src, plugin);
            && Touched(d.owner).hugepageLimits == Touched(c.owner).hugepageLimits
            && Touched(d.owner).unified == Touched(c.owner).unified
  {
    hide ClaimFields, KeepsLists;
    FieldsKeepLists(c, fs, src, plugin);
    var d := ClaimFields(c, fs, src, plugin);
    assert Owned(Touched(d.owner), HugepageLimits) == Owned(Touched(c.owner), HugepageLimits);
    assert Owned(Touched(d.owner), Unified) == Owned(Touched(c.owner), Unified);
  }

  lemma OneKindExtends(c: Claim, k: Kind, es: seq<Entry>, plugin: string)
    requires k == HugepageLimits || k == Unified
    ensures KeepsKeys(c.owner, ClaimKeys(c, k, es, plugin).owner, plugin)
    ensures var d := ClaimKeys(c, k, es, plugin);
            && (k == HugepageLimits ==> Touched(d.owner).unified == Touched(c.owner).unified)
            && (k == Unified ==> Touched(d.owner).hugepageLimits == Touched(c.owner).hugepageLimits)
  {
    hide ClaimKeys, KeepsLists;
    KeysKeep(c, k, es, plugin);
    var d := ClaimKeys(c, k, es, plugin);
    var other := if k == Unified then HugepageLimits else Unified;
    assert Owned(Touched(d.owner), other) == Owned(Touched(c.owner), other);
  }

  lemma AllFields(r: map<Field, string>, src: map<Field, string>, r1: map<Field, string>, r2: map<Field, string>)
    requires Merged(r, FieldSet(MEMORY_AND_CPU), src, r1) && Merged(r1, FieldSet(CLASSES), src, r2)
    ensures Merged(r, src.Keys - {CgroupsPath}, src, r2)
  {
    hide FieldSet;
    forall f {
      AnyField(f);
    }
  }

  lemma AnyField(f: Field)
    ensures f in FieldSet(MEMORY_AND_CPU) || f in FieldSet(CLASSES) <==> f != CgroupsPath
  {
    hide Rank;
    assert CLASSES[0] == BlockioClass && CLASSES[1] == RdtClass;
    if Rank(f) < 15 {
      assert MEMORY_AND_CPU[Rank(f)] == f;
    }
    if f in MEMORY_AND_CPU {
      var i :| 0 <= i < 15 && MEMORY_AND_CPU[i] == f;
      NotClass(i);
    }
  }
}

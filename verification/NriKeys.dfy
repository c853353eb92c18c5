/** Huge page limits and unified keys over all replies: they get owners that never change, and are never
    collected. */
module NriKeys {
  import opened Common
  import opened NriClaims
  import opened NriLists
  import opened NriResult

  ghost predicate Bare(r: Resources)
  {
    r.hugepages == [] && r.unified == []
  }

  /** No resources collected for any container have huge page limits or unified keys. */
  ghost predicate AllBare(s: Result)
  {
    Bare(s.adjust) && forall id :: id in s.updates ==> Bare(s.updates[id].resources)
  }

  /** From one result to a later one, for one plugin. */
  ghost predicate Keeps(s: Result, t: Result, plugin: string)
  {
    && t.conId == s.conId
    && (AllBare(s) ==> AllBare(t))
    && forall id :: KeepsKeys(OwnerOf(s, id), OwnerOf(t, id), plugin)
  }

  lemma KeepsRefl(s: Result, plugin: string)
    ensures Keeps(s, s, plugin)
  {
  }

  lemma KeepsTrans(s: Result, t: Result, u: Result, plugin: string)
    requires Keeps(s, t, plugin) && Keeps(t, u, plugin)
    ensures Keeps(s, u, plugin)
  {
    hide AllBare, KeepsKeys, OwnerOf;
    forall id
      ensures KeepsKeys(OwnerOf(s, id), OwnerOf(u, id), plugin)
    {
      assert KeepsKeys(OwnerOf(s, id), OwnerOf(t, id), plugin) && KeepsKeys(OwnerOf(t, id), OwnerOf(u, id), plugin);
      KeysTrans(OwnerOf(s, id), OwnerOf(t, id), OwnerOf(u, id), plugin);
    }
  }

  lemma KeysTrans(o: Option<Owners>, p: Option<Owners>, q: Option<Owners>, plugin: string)
    requires KeepsKeys(o, p, plugin) && KeepsKeys(p, q, plugin)
    ensures KeepsKeys(o, q, plugin)
  {
  }

  lemma StoreKeeps(s: Result, k: Kind, c: Collected, plugin: string)
    requires k in ADJUSTED
    ensures Keeps(s, Store(s, k, c), plugin)
  {
  }

  /** Claims on one container, written back to it. */
  lemma ClaimKeeps(s: Result, t: Result, id: string, c: Claim, plugin: string)
    requires t.conId == s.conId && KeepsKeys(OwnerOf(s, id), c.owner, plugin) && (AllBare(s) ==> AllBare(t))
    requires OwnerOf(t, id) == c.owner || (c.owner.None? && OwnerOf(t, id) == OwnerOf(s, id))
    requires forall x :: x != id ==> OwnerOf(t, x) == OwnerOf(s, x)
    ensures Keeps(s, t, plugin)
  {
    hide AllBare;
    forall x
      ensures KeepsKeys(OwnerOf(s, x), OwnerOf(t, x), plugin)
    {
    }
  }

  lemma ResourcesKeep(s: Result, src: Option<Resources>, plugin: string)
    ensures Keeps(s, AdjustResources(s, src, plugin).result, plugin)
  {
    hide ClaimResources, KeepsKeys, Keeps;
    match src
    case None => KeepsRefl(s, plugin);
    case Some(r) =>
      var c := ClaimResources(OwnerOf(s, s.conId), s.adjust, r, plugin);
      ClaimKeepsKeys(OwnerOf(s, s.conId), s.adjust, r, plugin);
      KeyedNotCollected(OwnerOf(s, s.conId), s.adjust, r, plugin);
      ClaimKeeps(s, AdjustResources(s, src, plugin).result, s.conId, c, plugin);
  }

  lemma PathKeeps(s: Result, path: string, plugin: string)
    ensures Keeps(s, AdjustCgroupsPath(s, path, plugin).result, plugin)
  {
    hide Keeps, ClaimField;
    if path == "" {
      KeepsRefl(s, plugin);
    } else {
      var c := Claim(OwnerOf(s, s.conId), s.adjust, true);
      var src := Resources(map[CgroupsPath := path], [], []);
      FieldKeepsKeys(c, CgroupsPath, src, plugin);
      ClaimKeeps(s, AdjustCgroupsPath(s, path, plugin).result, s.conId, ClaimField(c, CgroupsPath, src, plugin), plugin);
    }
  }

  lemma FieldKeepsKeys(c: Claim, f: Field, src: Resources, plugin: string)
    ensures var d := ClaimField(c, f, src, plugin);
            KeepsKeys(c.owner, d.owner, plugin) && d.dest.hugepages == c.dest.hugepages && d.dest.unified == c.dest.unified
  {
  }

  lemma LinuxKeeps(s: Result, l: LinuxAdjustment, plugin: string)
    ensures Keeps(s, AdjustLinux(s, l, plugin).result, plugin)
  {
    hide Keeps, AdjustResources, AdjustCgroupsPath, Adjusted, Store;
    var r1 := AdjustList(s, Devices, l.devices, plugin);
    StoreKeeps(s, Devices, Adjusted(Collect(s, Devices), l.devices, plugin), plugin);
    if r1.ok {
      var r2 := AdjustResources(r1.result, l.resources, plugin);
      ResourcesKeep(r1.result, l.resources, plugin);
      KeepsTrans(s, r1.result, r2.result, plugin);
      if r2.ok {
        PathKeeps(r2.result, l.cgroupsPath, plugin);
        KeepsTrans(s, r2.result, AdjustCgroupsPath(r2.result, l.cgroupsPath, plugin).result, plugin);
      }
    }
  }

  lemma AdjustKeeps(s: Result, a: Adjustment, plugin: string)
    ensures Keeps(s, Adjust(s, a, plugin).result, plugin)
  {
    hide Keeps, AdjustLinux, Adjusted, Store, AddAll;
    KeepsRefl(s, plugin);
    if a.annotationsOk {
      var r1 := AdjustList(s, Mounts, a.mounts, plugin);
      StoreKeeps(s, Mounts, Adjusted(Collect(s, Mounts), a.mounts, plugin), plugin);
      if r1.ok {
        var r2 := AdjustList(r1.result, Env, a.env, plugin);
        StoreKeeps(r1.result, Env, Adjusted(Collect(r1.result, Env), a.env, plugin), plugin);
        KeepsTrans(s, r1.result, r2.result, plugin);
        if r2.ok && !a.hooks {
          var r3 := if a.linux.Some? then AdjustLinux(r2.result, a.linux.value, plugin) else r2;
          if a.linux.Some? {
            LinuxKeeps(r2.result, a.linux.value, plugin);
            KeepsTrans(s, r2.result, r3.result, plugin);
          }
          if r3.ok {
            StoreKeeps(r3.result, Rlimits, AddAll(Collect(r3.result, Rlimits), a.rlimits, plugin), plugin);
            KeepsTrans(s, r3.result, AdjustRlimits(r3.result, a.rlimits, plugin).result, plugin);
          }
        }
      }
    }
  }

  lemma EntryKeeps(s: Result, u: Option<UpdateRequest>, plugin: string)
    ensures Keeps(s, GetContainerUpdate(s, u).result, plugin)
  {
  }

  lemma UpdateKeeps(s: Result, u: UpdateRequest, plugin: string)
    requires u.id in s.updates
    ensures Keeps(s, UpdateResources(s, u, plugin).result, plugin)
  {
    hide ClaimResources, KeepsKeys, Keeps;
    match u.resources
    case None => KeepsRefl(s, plugin);
    case Some(r) =>
      var c := ClaimResources(OwnerOf(s, u.id), s.updates[u.id].resources, r, plugin);
      ClaimKeepsKeys(OwnerOf(s, u.id), s.updates[u.id].resources, r, plugin);
      KeyedNotCollected(OwnerOf(s, u.id), s.updates[u.id].resources, r, plugin);
      ClaimKeeps(s, UpdateResources(s, u, plugin).result, u.id, c, plugin);
  }

  lemma {:induction false} UpdateAllKeeps(s: Result, us: seq<Option<UpdateRequest>>, plugin: string)
    ensures Keeps(s, UpdateAll(s, us, plugin).result, plugin)
  {
    hide Keeps, GetContainerUpdate, UpdateResources;
    if us == [] {
      KeepsRefl(s, plugin);
    } else {
      var r := UpdateAll(s, us[..|us| - 1], plugin);
      UpdateAllKeeps(s, us[..|us| - 1], plugin);
      if r.ok {
        var u := us[|us| - 1];
        var g := GetContainerUpdate(r.result, u);
        EntryKeeps(r.result, u, plugin);
        KeepsTrans(s, r.result, g.result, plugin);
        if g.ok {
          AcceptedIsThere(r.result, u);
          UpdateKeeps(g.result, u.value, plugin);
          KeepsTrans(s, g.result, UpdateResources(g.result, u.value, plugin).result, plugin);
        }
      }
    }
  }

  /** One reply, applied to the end or not, takes no key from its owner and collects none. */
  lemma ApplyKeeps(s: Result, c: Call)
    ensures Keeps(s, Apply(s, c).result, c.plugin)
  {
    hide Keeps, Adjust, UpdateAll;
    KeepsRefl(s, c.plugin);
    if c.plugin != "" {
      if c.event == CreateContainer {
        var r := if c.adjust.Some? then Adjust(s, c.adjust.value, c.plugin) else Outcome(s, true);
        if c.adjust.Some? {
          AdjustKeeps(s, c.adjust.value, c.plugin);
        }
        if r.ok {
          UpdateAllKeeps(r.result, c.updates, c.plugin);
          KeepsTrans(s, r.result, UpdateAll(r.result, c.updates, c.plugin).result, c.plugin);
        }
      } else if c.event != OtherEvent {
        UpdateAllKeeps(s, c.updates, c.plugin);
      }
    }
  }

  // ---------------------------------------------------------------- over all replies

  /** Over every sequence of replies nothing of this kind is collected for any container. */
  lemma {:induction false} NeverCollected(conId: string, cs: seq<Call>)
    ensures AllBare(ApplyAll(Init(conId), cs))
  {
    hide Apply, AllBare;
    if cs == [] {
      NoCalls(conId);
      BareAtFirst(conId);
    } else {
      NeverCollected(conId, cs[..|cs| - 1]);
      ApplyKeeps(ApplyAll(Init(conId), cs[..|cs| - 1]), cs[|cs| - 1]);
    }
  }

  lemma BareAtFirst(conId: string)
    ensures AllBare(Init(conId))
  {
  }

  /** The owners of a container's page sizes and unified keys. */
  function KeyOwners(s: Result, id: string, k: Kind): map<string, string>
  {
    Owned(Touched(OwnerOf(s, id)), k)
  }

  /** A page size or unified key that has an owner after the first `n` replies keeps it for good. */
  lemma {:induction false} KeyOwnedOnce(conId: string, cs: seq<Call>, n: nat, id: string, k: Kind, key: string)
    requires n <= |cs| && (k == HugepageLimits || k == Unified)
    requires key in KeyOwners(ApplyAll(Init(conId), cs[..n]), id, k)
    ensures var was, now := KeyOwners(ApplyAll(Init(conId), cs[..n]), id, k), KeyOwners(ApplyAll(Init(conId), cs), id, k);
            key in now && now[key] == was[key]
    decreases |cs|
  {
    hide Apply, ApplyAll, AllBare;
    if n == |cs| {
      assert cs[..n] == cs;
    } else {
      var m := |cs| - 1;
      assert cs[..m][..n] == cs[..n];
      KeyOwnedOnce(conId, cs[..m], n, id, k, key);
      Unfold(conId, cs);
      ApplyKeeps(ApplyAll(Init(conId), cs[..m]), cs[m]);
      assert KeepsKeys(OwnerOf(ApplyAll(Init(conId), cs[..m]), id), OwnerOf(ApplyAll(Init(conId), cs), id), cs[m].plugin);
    }
  }

  /** The first reply asks for one unified key: it succeeds and nothing is collected. */
  lemma UnifiedIsLost(conId: string)
    ensures var src := Resources(map[], [], [Entry("memory.high", "1")]);
            var a := Adjustment(true, [], [], false, Some(LinuxAdjustment([], Some(src), "")), []);
            var r := Apply(Init(conId), Call(CreateContainer, Some(a), [], "p"));
            r.ok && r.result == Init(conId)
  {
    hide ClaimFields, ClaimKeys, SetsSome;
    var src := Resources(map[], [], [Entry("memory.high", "1")]);
    var c := Claim(None, NOTHING, true);
    FieldsTouch(c, MEMORY_AND_CPU, src, "p");
    FieldsTouch(c, CLASSES, src, "p");
    NoneSet(src);
    KeysGranted(c, HugepageLimits, [], "p");
    KeysGranted(c, Unified, src.unified, "p");
    assert ClaimResources(None, NOTHING, src, "p") == c;
    NoAdditions(Collect(Init(conId), Rlimits), "p");
  }

  lemma NoneSet(src: Resources)
    requires src.scalars == map[]
    ensures !SetsSome(MEMORY_AND_CPU, src.scalars) && !SetsSome(CLASSES, src.scalars)
  {
  }
}

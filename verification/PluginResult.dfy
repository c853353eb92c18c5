/** The class `pluginResult`: its fields, and the container updates that `m_updates` and
    `m_reply.update` share, changed in place. */
module PluginResult {
  import opened Common
  import opened NriClaims
  import opened NriLists
  import opened NriResult

  /** `nri_container_update` */
  class ContainerUpdate {
    const containerId: string
    var ignoreFailure: bool
    var resources: Resources

    constructor (id: string, ignoreFailure: bool)
      ensures containerId == id && this.ignoreFailure == ignoreFailure && resources == NOTHING
    {
      containerId := id;
      this.ignoreFailure := ignoreFailure;
      resources := NOTHING;
    }
  }

  class PluginResult {
    const conId: string
    var owners: map<string, Owners>
    var lists: Lists
    var adjust: Resources
    var updates: map<string, ContainerUpdate>
    var replyUpdate: seq<ContainerUpdate>
    ghost var accepted: seq<UpdateRequest>

    /** The two containers of updates refer to the same objects. */
    ghost predicate Valid()
      reads this
    {
      && (forall id :: id in updates ==> updates[id].containerId == id)
      && (forall u :: u in replyUpdate ==> u.containerId in updates && updates[u.containerId] == u)
    }

    ghost function View(): Result
      requires Valid()
      reads this, updates.Values
    {
      Result(conId, owners, lists, adjust,
             map id | id in updates :: Update(updates[id].ignoreFailure, updates[id].resources),
             seq(|replyUpdate|, i requires 0 <= i < |replyUpdate| reads this => replyUpdate[i].containerId), accepted)
    }

    constructor (id: string)
      ensures Valid() && View() == Init(id) && updates == map[]
    {
      conId := id;
      owners := map[];
      lists := Lists([], [], [], []);
      adjust := NOTHING;
      updates := map[];
      replyUpdate := [];
      accepted := [];
    }

    // -------------------------------------------------------------- claims

    method ClaimScalars(id: string, fs: seq<Field>, src: Resources, plugin: string, ghost c: Claim, dest: Resources)
      returns (ok: bool, r: Resources)
      requires c == Claim(OwnerAt(id), dest, true)
      modifies this`owners
      ensures Claim(OwnerAt(id), r, ok) == ClaimFields(c, fs, src, plugin)
      ensures OnlyAt(old(owners), owners, id)
    {
      ok, r := true, dest;
      var i := 0;
      while i < |fs|
        invariant 0 <= i <= |fs| && ok
        invariant Claim(OwnerAt(id), r, true) == ClaimFields(c, fs[..i], src, plugin)
        invariant OnlyAt(old(owners), owners, id)
      {
        FieldsOn(c, fs, i, src, plugin);
        var f := fs[i];
        if f in src.scalars {
          if id !in owners {
            owners := owners[id := NOBODY];
          }
          if Slot(f) in owners[id].slots {
            ok := false;
            FieldsStop(c, fs, i + 1, src, plugin);
            return;
          }
          owners := owners[id := owners[id].(slots := owners[id].slots[Slot(f) := plugin])];
          r := r.(scalars := r.scalars[f := src.scalars[f]]);
        }
        i := i + 1;
      }
      assert fs[..i] == fs;
    }

    ghost function OwnerAt(id: string): Option<Owners>
      reads this`owners
    {
      if id in owners then Some(owners[id]) else None
    }

    /** The loops over huge page limits and over unified keys. */
    method ClaimEntryKeys(id: string, k: Kind, es: seq<Entry>, plugin: string, ghost c: Claim) returns (ok: bool)
      requires c.ok && c.owner == OwnerAt(id)
      modifies this`owners
      ensures Claim(OwnerAt(id), c.dest, ok) == ClaimKeys(c, k, es, plugin)
      ensures OnlyAt(old(owners), owners, id)
    {
      ok := true;
      var i := 0;
      while i < |es|
        invariant 0 <= i <= |es|
        invariant Claim(OwnerAt(id), c.dest, true) == ClaimKeys(c, k, es[..i], plugin)
        invariant OnlyAt(old(owners), owners, id)
      {
        KeysOn(c, k, es, i, plugin);
        if id in owners {
          var mine := Owned(owners[id], k);
          if es[i].key in mine {
            ok := false;
            KeysStop(c, k, es, i + 1, plugin);
            return;
          }
          owners := owners[id := WithOwned(owners[id], k, mine[es[i].key := plugin])];
        }
        i := i + 1;
      }
      assert es[..i] == es;
    }

    /** `ClaimAndCopyResources`; `dest` is handed back changed. */
    method ClaimAndCopyResources(src: Resources, id: string, plugin: string, dest: Resources)
      returns (ok: bool, r: Resources)
      modifies this`owners
      ensures Claim(OwnerAt(id), r, ok) == ClaimResources(old(OwnerAt(id)), dest, src, plugin)
      ensures OnlyAt(old(owners), owners, id)
    {
      hide ClaimFields, ClaimKeys;
      ghost var c := Claim(OwnerAt(id), dest, true);
      ok, r := ClaimScalars(id, MEMORY_AND_CPU, src, plugin, c, dest);
      if !ok {
        return;
      }
      c := Claim(OwnerAt(id), r, true);
      ok := ClaimEntryKeys(id, HugepageLimits, src.hugepages, plugin, c);
      if !ok {
        return;
      }
      c := Claim(OwnerAt(id), r, true);
      ok := ClaimEntryKeys(id, Unified, src.unified, plugin, c);
      if !ok {
        return;
      }
      c := Claim(OwnerAt(id), r, true);
      ok, r := ClaimScalars(id, CLASSES, src, plugin, c, r);
    }

    // -------------------------------------------------------------- lists

    ghost function OwnedAt(k: Kind): Option<map<string, string>>
      reads this`owners
    {
      if conId in owners then Some(Owned(owners[conId], k)) else None
    }

    /** Owners and lists are `o` and `l` with list `k` and its owners replaced by `c`'s. */
    ghost predicate Stored(o: map<string, Owners>, l: Lists, k: Kind, c: Collected)
      reads this`owners, this`lists
    {
      && lists == WithList(l, k, c.list)
      && (conId in o <==> c.owner.Some?)
      && owners == if c.owner.Some? && conId in o then o[conId := WithOwned(o[conId], k, c.owner.value)] else o
    }

    /** The loop that appends the additions, claiming each key of a tracked container. */
    method AddEntries(k: Kind, es: seq<Entry>, plugin: string, ghost c: Collected,
                      ghost o: map<string, Owners>, ghost l: Lists) returns (ok: bool)
      requires k in ADJUSTED && c.ok && Stored(o, l, k, c)
      modifies this`owners, this`lists
      ensures ok == AddAll(c, es, plugin).ok && Stored(o, l, k, AddAll(c, es, plugin))
    {
      ok := true;
      var i := 0;
      while i < |es|
        invariant 0 <= i <= |es|
        invariant AddAll(c, es[..i], plugin).ok && Stored(o, l, k, AddAll(c, es[..i], plugin))
      {
        AddOn(c, es, i, plugin);
        ghost var d := AddAll(c, es[..i], plugin);
        if conId in owners {
          var mine := Owned(owners[conId], k);
          if es[i].key in mine {
            AddStop(c, es, i + 1, plugin);
            return false;
          }
          WithTwice(o[conId], k, mine, mine[es[i].key := plugin]);
          owners := owners[conId := WithOwned(owners[conId], k, mine[es[i].key := plugin])];
        }
        ListTwice(l, k, d.list, d.list + [es[i]]);
        lists := WithList(lists, k, ListIn(lists, k) + [es[i]]);
        i := i + 1;
      }
      assert es[..i] == es;
    }

    /** The loop that rebuilds the collected list without the removed keys. */
    method ClearEntries(k: Kind, del: set<string>)
      requires k in ADJUSTED
      modifies this`owners, this`lists
      ensures Stored(old(owners), old(lists), k, Cleared(Collected(old(ListIn(lists, k)), old(OwnedAt(k)), true), del))
    {
      var list := ListIn(lists, k);
      var kept: seq<Entry> := [];
      var i := 0;
      ghost var o := owners;
      ghost var mine := if conId in o then Owned(o[conId], k) else map[];
      ClearStart(list, del, mine);
      if conId in o {
        WithSame(o[conId], k);
        assert o[conId := o[conId]] == o;
      }
      while i < |list|
        invariant 0 <= i <= |list|
        invariant lists == old(lists) && (conId in o <==> conId in owners)
        invariant owners == if conId in o then o[conId := WithOwned(o[conId], k, mine - (del * Keys(list[..i])))] else o
        invariant kept == Without(list[..i], del)
      {
        ClearOn(list, i, del, mine);
        if list[i].key in del {
          if conId in owners {
            WithTwice(o[conId], k, mine - (del * Keys(list[..i])), mine - (del * Keys(list[..i])) - {list[i].key});
            owners := owners[conId := WithOwned(owners[conId], k, Owned(owners[conId], k) - {list[i].key})];
          }
        } else {
          kept := kept + [list[i]];
        }
        i := i + 1;
      }
      assert list[..i] == list;
      lists := WithList(lists, k, kept);
    }

    /** `AdjustMounts`, `AdjustEnv` and `AdjustDevices`. */
    method AdjustEntries(k: Kind, es: seq<Entry>, plugin: string) returns (ok: bool)
      requires Valid() && k in ADJUSTED
      modifies this`owners, this`lists
      ensures Valid() && Outcome(View(), ok) == AdjustList(old(View()), k, es, plugin)
    {
      hide AddAll, Without, Additions;
      ghost var c := Collect(View(), k);
      if |es| == 0 {
        ListSame(lists, k);
        if conId in owners {
          WithSame(owners[conId], k);
          assert owners[conId := owners[conId]] == owners;
        }
        return true;
      }
      var add, del := Split(es);
      ClearEntries(k, del);
      if |ListIn(lists, k)| + |add| == 0 {
        // No array of size zero is handed out.
        assert View().updates == old(View().updates) && View().order == old(View().order);
        return false;
      }
      ok := AddEntries(k, add, plugin, Cleared(c, del), old(owners), old(lists));
      assert View().updates == old(View().updates) && View().order == old(View().order);
    }

    method AdjustRlimitEntries(es: seq<Entry>, plugin: string) returns (ok: bool)
      requires Valid()
      modifies this`owners, this`lists
      ensures Valid() && Outcome(View(), ok) == AdjustRlimits(old(View()), es, plugin)
    {
      hide AddAll;
      ghost var c := Collect(View(), Rlimits);
      ListSame(lists, Rlimits);
      if conId in owners {
        WithSame(owners[conId], Rlimits);
        assert owners[conId := owners[conId]] == owners;
      }
      ok := AddEntries(Rlimits, es, plugin, c, owners, lists);
      assert View().updates == old(View().updates) && View().order == old(View().order);
    }

    // -------------------------------------------------------------- adjustments

    method AdjustAllResources(src: Option<Resources>, plugin: string) returns (ok: bool)
      requires Valid()
      modifies this`owners, this`adjust
      ensures Valid() && Outcome(View(), ok) == AdjustResources(old(View()), src, plugin)
    {
      hide ClaimResources;
      match src {
        case None => ok := true;
        case Some(r) =>
          ok, adjust := ClaimAndCopyResources(r, conId, plugin, adjust);
      }
      OnlyAtIs(old(owners), owners, conId);
      assert View().updates == old(View().updates) && View().order == old(View().order);
    }

    method AdjustPath(path: string, plugin: string) returns (ok: bool)
      requires Valid()
      modifies this`owners, this`adjust
      ensures Valid() && Outcome(View(), ok) == AdjustCgroupsPath(old(View()), path, plugin)
    {
      hide ClaimFields, ClaimField;
      if path == "" {
        return true;
      }
      var src := Resources(map[CgroupsPath := path], [], []);
      ghost var c := Claim(OwnerAt(conId), adjust, true);
      OneField(c, CgroupsPath, src, plugin);
      ok, adjust := ClaimScalars(conId, [CgroupsPath], src, plugin, c, adjust);
      OnlyAtIs(old(owners), owners, conId);
      assert View().updates == old(View().updates) && View().order == old(View().order);
    }

    method AdjustAll(a: Adjustment, plugin: string) returns (ok: bool)
      requires Valid()
      modifies this`owners, this`lists, this`adjust
      ensures Valid() && Outcome(View(), ok) == Adjust(old(View()), a, plugin)
    {
      hide AdjustList, AdjustResources, AdjustCgroupsPath, AdjustRlimits;
      if !a.annotationsOk {
        return false;
      }
      ok := AdjustEntries(Mounts, a.mounts, plugin);
      if !ok {
        return;
      }
      ok := AdjustEntries(Env, a.env, plugin);
      if !ok {
        return;
      }
      if a.hooks {
        return false;
      }
      if a.linux.Some? {
        ok := AdjustEntries(Devices, a.linux.value.devices, plugin);
        if !ok {
          return;
        }
        ok := AdjustAllResources(a.linux.value.resources, plugin);
        if !ok {
          return;
        }
        ok := AdjustPath(a.linux.value.cgroupsPath, plugin);
        if !ok {
          return;
        }
      }
      ok := AdjustRlimitEntries(a.rlimits, plugin);
    }

    // -------------------------------------------------------------- updates

    method GetContainerUpdate(u: Option<UpdateRequest>) returns (ok: bool, out: ContainerUpdate?)
      requires Valid()
      modifies this`updates, this`replyUpdate, this`accepted, updates.Values
      ensures Valid()
      ensures Outcome(View(), ok) == NriResult.GetContainerUpdate(old(View()), u)
      ensures ok ==> u.Some? && u.value.id in updates && out == updates[u.value.id]
      ensures forall x :: x in updates.Values ==> x in old(updates.Values) || fresh(x)
    {
      if u.None? || u.value.id == conId {
        return false, null;
      }
      if u.value.id in updates {
        out := JoinUpdate(u.value);
      } else {
        out := NewUpdate(u.value);
      }
      ok := true;
    }

    method JoinUpdate(u: UpdateRequest) returns (out: ContainerUpdate)
      requires Valid() && u.id != conId && u.id in updates
      modifies this`accepted, updates[u.id]
      ensures Valid() && Outcome(View(), true) == NriResult.GetContainerUpdate(old(View()), Some(u))
      ensures out == updates[u.id]
    {
      out := updates[u.id];
      out.ignoreFailure := out.ignoreFailure && u.ignoreFailure;
      accepted := accepted + [u];
      assert View().order == old(View().order);
      assert View().updates == old(View().updates)[u.id := old(View().updates[u.id]).(ignoreFailure := out.ignoreFailure)];
    }

    method NewUpdate(u: UpdateRequest) returns (out: ContainerUpdate)
      requires Valid() && u.id != conId && u.id !in updates
      modifies this`updates, this`replyUpdate, this`accepted
      ensures Valid() && Outcome(View(), true) == NriResult.GetContainerUpdate(old(View()), Some(u))
      ensures fresh(out) && updates == old(updates)[u.id := out]
    {
      out := new ContainerUpdate(u.id, u.ignoreFailure);
      updates := updates[u.id := out];
      replyUpdate := replyUpdate + [out];
      accepted := accepted + [u];
      assert View().order == old(View().order) + [u.id];
      assert View().updates == old(View().updates)[u.id := Update(u.ignoreFailure, NOTHING)];
    }

    method UpdateContainerResources(reply: ContainerUpdate, u: UpdateRequest, plugin: string) returns (ok: bool)
      requires Valid() && u.id in updates && reply == updates[u.id]
      modifies this`owners, reply
      ensures Valid() && Outcome(View(), ok) == UpdateResources(old(View()), u, plugin)
    {
      hide ClaimResources;
      match u.resources {
        case None => ok := true;
        case Some(r) =>
          var dest;
          ok, dest := ClaimAndCopyResources(r, u.id, plugin, reply.resources);
          if ok {
            reply.resources := dest;
          }
      }
      OnlyAtIs(old(owners), owners, u.id);
      assert View().order == old(View().order);
      assert View().updates == old(View().updates)[u.id := Update(reply.ignoreFailure, reply.resources)];
      assert old(View().updates)[u.id := old(View().updates[u.id])] == old(View().updates);
    }

    method UpdateContainers(us: seq<Option<UpdateRequest>>, plugin: string) returns (ok: bool)
      requires Valid()
      modifies this, updates.Values
      ensures Valid() && Outcome(View(), ok) == UpdateAll(old(View()), us, plugin)
    {
      hide NriResult.GetContainerUpdate, UpdateResources;
      ghost var start := View();
      var i := 0;
      while i < |us|
        invariant 0 <= i <= |us| && Valid()
        invariant forall x :: x in updates.Values ==> x in old(updates.Values) || fresh(x)
        invariant Outcome(View(), true) == UpdateAll(start, us[..i], plugin)
      {
        UpdateOn(start, us, i, plugin);
        var out;
        ok, out := GetContainerUpdate(us[i]);
        if !ok {
          UpdateStop(start, us, i + 1, plugin);
          return;
        }
        ok := UpdateContainerResources(out, us[i].value, plugin);
        if !ok && !us[i].value.ignoreFailure {
          UpdateStop(start, us, i + 1, plugin);
          return;
        }
        i := i + 1;
      }
      assert us[..i] == us;
      ok := true;
    }

    method ApplyReply(c: Call) returns (ok: bool)
      requires Valid()
      modifies this, updates.Values
      ensures Valid() && Outcome(View(), ok) == Apply(old(View()), c)
    {
      hide Adjust, UpdateAll;
      if |c.plugin| == 0 {
        return false;
      }
      if c.event == CreateContainer {
        if c.adjust.Some? {
          ok := AdjustAll(c.adjust.value, c.plugin);
          if !ok {
            return;
          }
        }
        ok := UpdateContainers(c.updates, c.plugin);
      } else if c.event == UpdateContainer {
        ok := UpdateContainers(c.updates, c.plugin);
      } else if c.event == StopContainer {
        ok := UpdateContainers(c.updates, c.plugin);
      } else {
        ok := false;
      }
    }
  }

  /** Only the entry of `id` differs, and none was dropped. */
  ghost predicate OnlyAt(o: map<string, Owners>, o': map<string, Owners>, id: string)
  {
    && (forall x :: x != id ==> (x in o' <==> x in o) && (x in o ==> o'[x] == o[x]))
    && (id in o ==> id in o')
  }

  lemma OnlyAtIs(o: map<string, Owners>, o': map<string, Owners>, id: string)
    requires OnlyAt(o, o', id)
    ensures o' == if id in o' then o[id := o'[id]] else o
  {
  }

  lemma WithTwice(o: Owners, k: Kind, m: map<string, string>, n: map<string, string>)
    ensures WithOwned(WithOwned(o, k, m), k, n) == WithOwned(o, k, n)
    ensures Owned(WithOwned(o, k, m), k) == m
  {
  }

  lemma WithSame(o: Owners, k: Kind)
    ensures WithOwned(o, k, Owned(o, k)) == o
  {
  }

  lemma ListTwice(l: Lists, k: Kind, x: seq<Entry>, y: seq<Entry>)
    ensures WithList(WithList(l, k, x), k, y) == WithList(l, k, y)
  {
  }

  lemma ListSame(l: Lists, k: Kind)
    requires k in ADJUSTED
    ensures WithList(l, k, ListIn(l, k)) == l
  {
  }

  method Split(es: seq<Entry>) returns (add: seq<Entry>, del: set<string>)
    ensures add == Additions(es) && del == Removals(es)
  {
    add, del := [], {};
    var i := 0;
    assert Removals(es[..0]) == {};
    while i < |es|
      invariant 0 <= i <= |es|
      invariant add == Additions(es[..i]) && del == Removals(es[..i])
    {
      SplitOn(es, i);
      if Marked(es[i].key) {
        del := del + {es[i].key[1..]};
      } else {
        add := add + [es[i]];
      }
      i := i + 1;
    }
    assert es[..i] == es;
  }

  lemma SplitOn(es: seq<Entry>, i: nat)
    requires i < |es|
    ensures Additions(es[..i + 1]) == if Marked(es[i].key) then Additions(es[..i]) else Additions(es[..i]) + [es[i]]
    ensures Removals(es[..i + 1]) == if Marked(es[i].key) then Removals(es[..i]) + {es[i].key[1..]} else Removals(es[..i])
  {
    var a, b := es[..i], es[..i + 1];
    assert b == a + [es[i]] && b[..i] == a;
    assert forall e :: e in b <==> e in a || e == es[i];
    assert Marked(es[i].key) ==> es[i] in b && es[i].key[1..] in Removals(b);
    forall x | x in Removals(a)
      ensures x in Removals(b)
    {
      var e :| e in a && Marked(e.key) && e.key[1..] == x;
      assert e in b;
    }
  }

  lemma ClearStart(list: seq<Entry>, del: set<string>, mine: map<string, string>)
    ensures Without(list[..0], del) == [] && mine - (del * Keys(list[..0])) == mine
  {
  }

  lemma ClearOn(list: seq<Entry>, i: nat, del: set<string>, mine: map<string, string>)
    requires i < |list|
    ensures Without(list[..i + 1], del)
            == if list[i].key in del then Without(list[..i], del) else Without(list[..i], del) + [list[i]]
    ensures mine - (del * Keys(list[..i + 1]))
            == if list[i].key in del then mine - (del * Keys(list[..i])) - {list[i].key} else mine - (del * Keys(list[..i]))
  {
    hide Keys;
    var a, b := list[..i], list[..i + 1];
    assert b == a + [list[i]] && b[..i] == a;
    KeysSnoc(a, list[i]);
    MinusMore(mine, del * Keys(a), list[i].key);
    assert del * (Keys(a) + {list[i].key}) == if list[i].key in del then del * Keys(a) + {list[i].key} else del * Keys(a);
  }

  lemma MinusMore(m: map<string, string>, s: set<string>, x: string)
    ensures m - (s + {x}) == m - s - {x}
  {
  }

  lemma UpdateOn(s: Result, us: seq<Option<UpdateRequest>>, i: nat, plugin: string)
    requires i < |us|
    ensures UpdateAll(s, us[..i + 1], plugin) ==
            var r := UpdateAll(s, us[..i], plugin);
            if !r.ok then r else UpdateOne(r.result, us[i], plugin)
  {
    assert us[..i + 1][..i] == us[..i];
  }

  lemma {:induction false} UpdateStop(s: Result, us: seq<Option<UpdateRequest>>, i: nat, plugin: string)
    requires i <= |us| && !UpdateAll(s, us[..i], plugin).ok
    ensures UpdateAll(s, us, plugin) == UpdateAll(s, us[..i], plugin)
    decreases |us|
  {
    hide UpdateOne;
    if i == |us| {
      assert us[..i] == us;
    } else {
      var n := |us| - 1;
      assert us[..n][..i] == us[..i];
      UpdateStop(s, us[..n], i, plugin);
    }
  }

  lemma OneField(c: Claim, f: Field, src: Resources, plugin: string)
    ensures ClaimFields(c, [f], src, plugin) == ClaimField(c, f, src, plugin)
  {
    assert [f][..0] == [];
  }

  lemma FieldsOn(c: Claim, fs: seq<Field>, i: nat, src: Resources, plugin: string)
    requires i < |fs|
    ensures ClaimFields(c, fs[..i + 1], src, plugin) == ClaimField(ClaimFields(c, fs[..i], src, plugin), fs[i], src, plugin)
  {
    assert fs[..i + 1][..i] == fs[..i];
  }

  lemma {:induction false} FieldsStop(c: Claim, fs: seq<Field>, i: nat, src: Resources, plugin: string)
    requires i <= |fs| && !ClaimFields(c, fs[..i], src, plugin).ok
    ensures ClaimFields(c, fs, src, plugin) == ClaimFields(c, fs[..i], src, plugin)
    decreases |fs|
  {
    if i == |fs| {
      assert fs[..i] == fs;
    } else {
      var n := |fs| - 1;
      assert fs[..n][..i] == fs[..i];
      FieldsStop(c, fs[..n], i, src, plugin);
    }
  }

  lemma KeysOn(c: Claim, k: Kind, es: seq<Entry>, i: nat, plugin: string)
    requires i < |es|
    ensures ClaimKeys(c, k, es[..i + 1], plugin) ==
            var d := ClaimKeys(c, k, es[..i], plugin);
            if !d.ok then d
            else match ClaimKey(d.owner, k, es[i].key, plugin)
                 case None => d.(ok := false)
                 case Some(o) => d.(owner := o)
  {
    assert es[..i + 1][..i] == es[..i];
  }

  lemma {:induction false} KeysStop(c: Claim, k: Kind, es: seq<Entry>, i: nat, plugin: string)
    requires i <= |es| && !ClaimKeys(c, k, es[..i], plugin).ok
    ensures ClaimKeys(c, k, es, plugin) == ClaimKeys(c, k, es[..i], plugin)
    decreases |es|
  {
    if i == |es| {
      assert es[..i] == es;
    } else {
      var n := |es| - 1;
      assert es[..n][..i] == es[..i];
      KeysStop(c, k, es[..n], i, plugin);
    }
  }

  lemma AddOn(c: Collected, es: seq<Entry>, i: nat, plugin: string)
    requires i < |es|
    ensures AddAll(c, es[..i + 1], plugin) == Add(AddAll(c, es[..i], plugin), es[i], plugin)
  {
    assert es[..i + 1][..i] == es[..i];
  }

  lemma {:induction false} AddStop(c: Collected, es: seq<Entry>, i: nat, plugin: string)
    requires i <= |es| && !AddAll(c, es[..i], plugin).ok
    ensures AddAll(c, es, plugin) == AddAll(c, es[..i], plugin)
    decreases |es|
  {
    if i == |es| {
      assert es[..i] == es;
    } else {
      var n := |es| - 1;
      assert es[..n][..i] == es[..i];
      AddStop(c, es[..n], i, plugin);
    }
  }
}

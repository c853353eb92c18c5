/** `pluginResult` as a value: what `Apply` makes of one plugin's reply, and what holds
    after any number of replies, whether or not they were applied to the end. */
module NriResult {
  import opened Common
  import opened NriClaims
  import opened NriLists

  datatype Update = Update(ignoreFailure: bool, resources: Resources)

  /** An update a plugin asks for; a null `linux` or `resources` is `None`. */
  datatype UpdateRequest = UpdateRequest(id: string, ignoreFailure: bool, resources: Option<Resources>)

  datatype LinuxAdjustment = LinuxAdjustment(devices: seq<Entry>, resources: Option<Resources>, cgroupsPath: string)

  /** An adjustment of the container that is being created. Whether its annotations are
      free of conflicts is taken as given; hooks only matter by being there. */
  datatype Adjustment = Adjustment(
    annotationsOk: bool, mounts: seq<Entry>, env: seq<Entry>, hooks: bool,
    linux: Option<LinuxAdjustment>, rlimits: seq<Entry>)

  datatype Event = CreateContainer | UpdateContainer | StopContainer | OtherEvent

  datatype Call = Call(event: Event, adjust: Option<Adjustment>, updates: seq<Option<UpdateRequest>>, plugin: string)

  datatype Result = Result(
    conId: string,
    owners: map<string, Owners>,
    lists: Lists,                       // the adjusted lists collected so far
    adjust: Resources,                  // and the adjusted resources
    updates: map<string, Update>,
    order: seq<string>,                 // the containers in `m_reply.update`, in order
    accepted: seq<UpdateRequest>        // history: the requests `GetContainerUpdate` accepted
  )

  datatype Lists = Lists(mounts: seq<Entry>, env: seq<Entry>, devices: seq<Entry>, rlimits: seq<Entry>)

  function ListIn(l: Lists, k: Kind): seq<Entry>
  {
    match k
    case Mounts => l.mounts
    case Env => l.env
    case Devices => l.devices
    case Rlimits => l.rlimits
    case _ => []
  }

  const ADJUSTED: set<Kind> := {Mounts, Env, Devices, Rlimits}

  function WithList(l: Lists, k: Kind, es: seq<Entry>): (r: Lists)
    ensures forall x :: x != k ==> ListIn(r, x) == ListIn(l, x)
    ensures k in ADJUSTED ==> ListIn(r, k) == es
  {
    match k
    case Mounts => l.(mounts := es)
    case Env => l.(env := es)
    case Devices => l.(devices := es)
    case Rlimits => l.(rlimits := es)
    case _ => l
  }

  datatype Outcome = Outcome(result: Result, ok: bool)

  function Init(conId: string): Result
  {
    Result(conId, map[], Lists([], [], [], []), NOTHING, map[], [], [])
  }

  function OwnerOf(s: Result, id: string): Option<Owners>
  {
    if id in s.owners then Some(s.owners[id]) else None
  }

  function WithOwner(s: Result, id: string, o: Option<Owners>): Result
  {
    if o.Some? then s.(owners := s.owners[id := o.value]) else s
  }

  /** Nothing that concerns updates has changed. */
  predicate SameUpdates(s: Result, t: Result)
  {
    t.conId == s.conId && t.order == s.order && t.updates == s.updates && t.accepted == s.accepted
  }

  function ListOf(s: Result, k: Kind): seq<Entry>
  {
    ListIn(s.lists, k)
  }

  // ---------------------------------------------------------------- adjustments

  function Collect(s: Result, k: Kind): Collected
  {
    Collected(ListOf(s, k), if s.conId in s.owners then Some(Owned(s.owners[s.conId], k)) else None, true)
  }

  function Store(s: Result, k: Kind, c: Collected): (t: Result)
    ensures SameUpdates(s, t)
  {
    var t := s.(lists := WithList(s.lists, k, c.list));
    if c.owner.Some? && s.conId in s.owners
    then t.(owners := s.owners[s.conId := WithOwned(s.owners[s.conId], k, c.owner.value)])
    else t
  }

  function AdjustList(s: Result, k: Kind, es: seq<Entry>, plugin: string): (r: Outcome)
    ensures SameUpdates(s, r.result)
  {
    var c := Adjusted(Collect(s, k), es, plugin);
    Outcome(Store(s, k, c), c.ok)
  }

  function AdjustRlimits(s: Result, es: seq<Entry>, plugin: string): (r: Outcome)
    ensures SameUpdates(s, r.result)
  {
    var c := AddAll(Collect(s, Rlimits), es, plugin);
    Outcome(Store(s, Rlimits, c), c.ok)
  }

  /** The resources of the reply are changed in place, so a conflict leaves what was copied. */
  function AdjustResources(s: Result, src: Option<Resources>, plugin: string): (r: Outcome)
    ensures SameUpdates(s, r.result)
  {
    match src
    case None => Outcome(s, true)
    case Some(r) =>
      var c := ClaimResources(OwnerOf(s, s.conId), s.adjust, r, plugin);
      Outcome(WithOwner(s, s.conId, c.owner).(adjust := c.dest), c.ok)
  }

  function AdjustCgroupsPath(s: Result, path: string, plugin: string): (r: Outcome)
    ensures SameUpdates(s, r.result)
  {
    if path == "" then Outcome(s, true)
    else
      var c := ClaimField(Claim(OwnerOf(s, s.conId), s.adjust, true), CgroupsPath,
                          Resources(map[CgroupsPath := path], [], []), plugin);
      Outcome(WithOwner(s, s.conId, c.owner).(adjust := c.dest), c.ok)
  }

  function AdjustLinux(s: Result, l: LinuxAdjustment, plugin: string): (r: Outcome)
    ensures SameUpdates(s, r.result)
  {
    var r1 := AdjustList(s, Devices, l.devices, plugin);
    if !r1.ok then r1
    else
      var r2 := AdjustResources(r1.result, l.resources, plugin);
      if !r2.ok then r2 else AdjustCgroupsPath(r2.result, l.cgroupsPath, plugin)
  }

  /** `Adjust`: stops at the first part that fails; hooks always fail. */
  function Adjust(s: Result, a: Adjustment, plugin: string): (r: Outcome)
    ensures SameUpdates(s, r.result)
  {
    if !a.annotationsOk then Outcome(s, false)
    else
      var r1 := AdjustList(s, Mounts, a.mounts, plugin);
      if !r1.ok then r1
      else
        var r2 := AdjustList(r1.result, Env, a.env, plugin);
        if !r2.ok || a.hooks then r2.(ok := false)
        else
          var r3 := if a.linux.Some? then AdjustLinux(r2.result, a.linux.value, plugin) else r2;
          if !r3.ok then r3 else AdjustRlimits(r3.result, a.rlimits, plugin)
  }

  // ---------------------------------------------------------------- updates

  /** `GetContainerUpdate`. */
  function GetContainerUpdate(s: Result, u: Option<UpdateRequest>): Outcome
  {
    if u.None? || u.value.id == s.conId then Outcome(s, false)
    else
      var id := u.value.id;
      var t := s.(accepted := s.accepted + [u.value]);
      if id in s.updates then
        Outcome(t.(updates := s.updates[id := s.updates[id].(ignoreFailure := s.updates[id].ignoreFailure && u.value.ignoreFailure)]), true)
      else
        Outcome(t.(updates := s.updates[id := Update(u.value.ignoreFailure, NOTHING)], order := s.order + [id]), true)
  }

  /** `UpdateResources`: works on a copy, so a conflict leaves the collected resources. */
  function UpdateResources(s: Result, u: UpdateRequest, plugin: string): Outcome
    requires u.id in s.updates
  {
    match u.resources
    case None => Outcome(s, true)
    case Some(r) =>
      var c := ClaimResources(OwnerOf(s, u.id), s.updates[u.id].resources, r, plugin);
      var t := WithOwner(s, u.id, c.owner);
      Outcome(if c.ok then t.(updates := s.updates[u.id := s.updates[u.id].(resources := c.dest)]) else t, c.ok)
  }

  function UpdateOne(s: Result, u: Option<UpdateRequest>, plugin: string): Outcome
  {
    var r := GetContainerUpdate(s, u);
    if !r.ok then r
    else
      var q := UpdateResources(r.result, u.value, plugin);
      q.(ok := q.ok || u.value.ignoreFailure)
  }

  function UpdateAll(s: Result, us: seq<Option<UpdateRequest>>, plugin: string): Outcome
  {
    if us == [] then Outcome(s, true)
    else
      var r := UpdateAll(s, us[..|us| - 1], plugin);
      if !r.ok then r else UpdateOne(r.result, us[|us| - 1], plugin)
  }

  function Apply(s: Result, c: Call): Outcome
  {
    if c.plugin == "" then Outcome(s, false)
    else
      match c.event
      case CreateContainer =>
        var r := if c.adjust.Some? then Adjust(s, c.adjust.value, c.plugin) else Outcome(s, true);
        if !r.ok then r else UpdateAll(r.result, c.updates, c.plugin)
      case OtherEvent => Outcome(s, false)
      case _ => UpdateAll(s, c.updates, c.plugin)
  }

  /** The caller goes on with the next plugin whatever `Apply` returns. */
  function ApplyAll(s: Result, cs: seq<Call>): Result
  {
    if cs == [] then s else Apply(ApplyAll(s, cs[..|cs| - 1]), cs[|cs| - 1]).result
  }

  // ---------------------------------------------------------------- write-once resources

  /** The scalar resources collected for a container. */
  function Scalars(s: Result, id: string): map<Field, string>
  {
    if id == s.conId then s.adjust.scalars
    else if id in s.updates then s.updates[id].resources.scalars
    else map[]
  }

  ghost predicate AllBacked(s: Result)
  {
    s.conId !in s.updates && forall id :: Backed(OwnerOf(s, id), Scalars(s, id))
  }

  /** What one plugin may change, seen at container `id`: owners and scalars are only
      added, and what is added is owned by the plugin. */
  ghost predicate Adds(s: Result, t: Result, id: string, plugin: string)
  {
    var o, o' := SlotsOf(OwnerOf(s, id)), SlotsOf(OwnerOf(t, id));
    var r, r' := Scalars(s, id), Scalars(t, id);
    && (forall g :: g in o ==> g in o' && o'[g] == o[g])
    && (forall g :: g in o' && g !in o ==> o'[g] == plugin)
    && (forall f :: f in r ==> f in r' && r'[f] == r[f])
    && (forall f :: f in r' && f !in r ==> Slot(f) in o' && o'[Slot(f)] == plugin)
    && (id in s.owners ==> id in t.owners)
  }

  ghost predicate Step(s: Result, t: Result, plugin: string)
  {
    && t.conId == s.conId
    && AllBacked(t)
    && forall id :: Adds(s, t, id, plugin)
  }

  lemma StepTrans(s: Result, t: Result, u: Result, plugin: string)
    requires Step(s, t, plugin) && Step(t, u, plugin)
    ensures Step(s, u, plugin)
  {
    forall id
      ensures Adds(s, u, id, plugin)
    {
      assert Adds(s, t, id, plugin) && Adds(t, u, id, plugin);
    }
  }

  lemma StepRefl(s: Result, plugin: string)
    requires AllBacked(s)
    ensures Step(s, s, plugin)
  {
  }

  /** A change that keeps the owner slots and the scalars. */
  lemma StepQuiet(s: Result, t: Result, plugin: string)
    requires AllBacked(s) && t.conId == s.conId && t.conId !in t.updates
    requires forall id :: SlotsOf(OwnerOf(t, id)) == SlotsOf(OwnerOf(s, id)) && Scalars(t, id) == Scalars(s, id)
    requires forall id :: id in s.owners ==> id in t.owners
    ensures Step(s, t, plugin)
  {
  }

  lemma StoreStep(s: Result, k: Kind, c: Collected, plugin: string)
    requires AllBacked(s)
    ensures Step(s, Store(s, k, c), plugin)
  {
    StepQuiet(s, Store(s, k, c), plugin);
  }

  /** Claims on one container, written back to it. */
  lemma ClaimStep(s: Result, t: Result, id: string, d: Resources, c: Claim, plugin: string, src: map<Field, string>)
    requires AllBacked(s) && t.conId == s.conId && t.conId !in t.updates
    requires d.scalars == Scalars(s, id) && ClaimGrows(Claim(OwnerOf(s, id), d, true), c, plugin, src)
    requires OwnerOf(t, id) == c.owner || (c.owner.None? && OwnerOf(t, id) == OwnerOf(s, id))
    requires Scalars(t, id) == c.dest.scalars || Scalars(t, id) == Scalars(s, id)
    requires forall x :: x != id ==> OwnerOf(t, x) == OwnerOf(s, x) && Scalars(t, x) == Scalars(s, x)
    ensures Step(s, t, plugin)
  {
    forall x
      ensures Adds(s, t, x, plugin) && Backed(OwnerOf(t, x), Scalars(t, x))
    {
      if x != id {
        assert Backed(OwnerOf(s, x), Scalars(s, x));
      } else {
        assert Backed(OwnerOf(s, id), Scalars(s, id));
        OneContainer(s, t, id, d, c, plugin, src);
      }
    }
  }

  lemma OneContainer(s: Result, t: Result, id: string, d: Resources, c: Claim, plugin: string, src: map<Field, string>)
    requires Backed(OwnerOf(s, id), Scalars(s, id))
    requires d.scalars == Scalars(s, id) && ClaimGrows(Claim(OwnerOf(s, id), d, true), c, plugin, src)
    requires OwnerOf(t, id) == c.owner || (c.owner.None? && OwnerOf(t, id) == OwnerOf(s, id))
    requires Scalars(t, id) == c.dest.scalars || Scalars(t, id) == Scalars(s, id)
    ensures Adds(s, t, id, plugin) && Backed(OwnerOf(t, id), Scalars(t, id))
  {
  }

  lemma AdjustResourcesStep(s: Result, src: Option<Resources>, plugin: string)
    requires AllBacked(s)
    ensures Step(s, AdjustResources(s, src, plugin).result, plugin)
  {
    hide ClaimResources, ClaimGrows, Step, Adds;
    match src
    case None => StepRefl(s, plugin);
    case Some(r) =>
      assert Backed(OwnerOf(s, s.conId), Scalars(s, s.conId));
      ClaimIsWriteOnce(OwnerOf(s, s.conId), s.adjust, r, plugin);
      var c := ClaimResources(OwnerOf(s, s.conId), s.adjust, r, plugin);
      ClaimStep(s, AdjustResources(s, src, plugin).result, s.conId, s.adjust, c, plugin, r.scalars);
  }

  lemma CgroupsPathStep(s: Result, path: string, plugin: string)
    requires AllBacked(s)
    ensures Step(s, AdjustCgroupsPath(s, path, plugin).result, plugin)
  {
    hide Step, Adds, ClaimField;
    if path == "" {
      StepRefl(s, plugin);
    } else {
      var src := Resources(map[CgroupsPath := path], [], []);
      var c0 := Claim(OwnerOf(s, s.conId), s.adjust, true);
      assert Backed(OwnerOf(s, s.conId), Scalars(s, s.conId));
      FieldGrows(c0, c0, CgroupsPath, src, plugin);
      ClaimStep(s, AdjustCgroupsPath(s, path, plugin).result, s.conId, s.adjust, ClaimField(c0, CgroupsPath, src, plugin),
                plugin, src.scalars);
    }
  }

  lemma AdjustStep(s: Result, a: Adjustment, plugin: string)
    requires AllBacked(s)
    ensures Step(s, Adjust(s, a, plugin).result, plugin)
  {
    hide Adds, AllBacked, AdjustLinux, Adjusted, Store, AddAll;
    StepRefl(s, plugin);
    if a.annotationsOk {
      var r1 := AdjustList(s, Mounts, a.mounts, plugin);
      StoreStep(s, Mounts, Adjusted(Collect(s, Mounts), a.mounts, plugin), plugin);
      if r1.ok {
        var r2 := AdjustList(r1.result, Env, a.env, plugin);
        StoreStep(r1.result, Env, Adjusted(Collect(r1.result, Env), a.env, plugin), plugin);
        StepTrans(s, r1.result, r2.result, plugin);
        if r2.ok && !a.hooks {
          var r3 := if a.linux.Some? then AdjustLinux(r2.result, a.linux.value, plugin) else r2;
          if a.linux.Some? {
            LinuxStep(r2.result, a.linux.value, plugin);
            StepTrans(s, r2.result, r3.result, plugin);
          }
          if r3.ok {
            var c := AddAll(Collect(r3.result, Rlimits), a.rlimits, plugin);
            StoreStep(r3.result, Rlimits, c, plugin);
            StepTrans(s, r3.result, AdjustRlimits(r3.result, a.rlimits, plugin).result, plugin);
          }
        }
      }
    }
  }

  lemma LinuxStep(s: Result, l: LinuxAdjustment, plugin: string)
    requires AllBacked(s)
    ensures Step(s, AdjustLinux(s, l, plugin).result, plugin)
  {
    hide Adds, AllBacked, AdjustResources, AdjustCgroupsPath, Adjusted, Store;
    var r1 := AdjustList(s, Devices, l.devices, plugin);
    StoreStep(s, Devices, Adjusted(Collect(s, Devices), l.devices, plugin), plugin);
    if r1.ok {
      var r2 := AdjustResources(r1.result, l.resources, plugin);
      AdjustResourcesStep(r1.result, l.resources, plugin);
      StepTrans(s, r1.result, r2.result, plugin);
      if r2.ok {
        CgroupsPathStep(r2.result, l.cgroupsPath, plugin);
        StepTrans(s, r2.result, AdjustCgroupsPath(r2.result, l.cgroupsPath, plugin).result, plugin);
      }
    }
  }

  lemma GetContainerUpdateStep(s: Result, u: Option<UpdateRequest>, plugin: string)
    requires AllBacked(s)
    ensures Step(s, GetContainerUpdate(s, u).result, plugin)
  {
    StepQuiet(s, GetContainerUpdate(s, u).result, plugin);
  }

  lemma UpdateResourcesStep(s: Result, u: UpdateRequest, plugin: string)
    requires AllBacked(s) && u.id in s.updates
    ensures Step(s, UpdateResources(s, u, plugin).result, plugin)
  {
    hide ClaimResources, ClaimGrows, Step, Adds;
    match u.resources
    case None => StepRefl(s, plugin);
    case Some(r) =>
      assert Backed(OwnerOf(s, u.id), Scalars(s, u.id));
      ClaimIsWriteOnce(OwnerOf(s, u.id), s.updates[u.id].resources, r, plugin);
      var c := ClaimResources(OwnerOf(s, u.id), s.updates[u.id].resources, r, plugin);
      ClaimStep(s, UpdateResources(s, u, plugin).result, u.id, s.updates[u.id].resources, c, plugin, r.scalars);
  }

  lemma {:induction false} UpdateAllStep(s: Result, us: seq<Option<UpdateRequest>>, plugin: string)
    requires AllBacked(s)
    ensures Step(s, UpdateAll(s, us, plugin).result, plugin)
  {
    hide Adds, AllBacked, GetContainerUpdate, UpdateResources;
    if us == [] {
      StepRefl(s, plugin);
    } else {
      var r := UpdateAll(s, us[..|us| - 1], plugin);
      UpdateAllStep(s, us[..|us| - 1], plugin);
      if r.ok {
        var u := us[|us| - 1];
        var g := GetContainerUpdate(r.result, u);
        GetContainerUpdateStep(r.result, u, plugin);
        StepTrans(s, r.result, g.result, plugin);
        if g.ok {
          AcceptedIsThere(r.result, u);
          UpdateResourcesStep(g.result, u.value, plugin);
          StepTrans(s, g.result, UpdateResources(g.result, u.value, plugin).result, plugin);
        }
      }
    }
  }

  lemma AcceptedIsThere(s: Result, u: Option<UpdateRequest>)
    requires GetContainerUpdate(s, u).ok
    ensures u.Some? && u.value.id in GetContainerUpdate(s, u).result.updates
  {
  }

  /** One reply, applied to the end or not, overwrites nothing. */
  lemma ApplyIsWriteOnce(s: Result, c: Call)
    requires AllBacked(s)
    ensures Step(s, Apply(s, c).result, c.plugin)
  {
    hide Adds, AllBacked, Adjust, UpdateAll;
    StepRefl(s, c.plugin);
    if c.plugin != "" {
      if c.event == CreateContainer {
        var r := if c.adjust.Some? then Adjust(s, c.adjust.value, c.plugin) else Outcome(s, true);
        if c.adjust.Some? {
          AdjustStep(s, c.adjust.value, c.plugin);
        }
        if r.ok {
          UpdateAllStep(r.result, c.updates, c.plugin);
          StepTrans(s, r.result, UpdateAll(r.result, c.updates, c.plugin).result, c.plugin);
        }
      } else if c.event != OtherEvent {
        UpdateAllStep(s, c.updates, c.plugin);
      }
    }
  }

  // ---------------------------------------------------------------- over all replies

  lemma {:induction false} AllBackedAlways(conId: string, cs: seq<Call>)
    ensures AllBacked(ApplyAll(Init(conId), cs)) && ApplyAll(Init(conId), cs).conId == conId
  {
    hide Adds, Apply;
    if cs != [] {
      AllBackedAlways(conId, cs[..|cs| - 1]);
      ApplyIsWriteOnce(ApplyAll(Init(conId), cs[..|cs| - 1]), cs[|cs| - 1]);
    }
  }

  lemma LastStep(conId: string, cs: seq<Call>, id: string)
    requires cs != []
    ensures Adds(ApplyAll(Init(conId), cs[..|cs| - 1]), ApplyAll(Init(conId), cs), id, cs[|cs| - 1].plugin)
  {
    hide Adds, Apply;
    AllBackedAlways(conId, cs[..|cs| - 1]);
    ApplyIsWriteOnce(ApplyAll(Init(conId), cs[..|cs| - 1]), cs[|cs| - 1]);
  }

  /** A scalar collected for a container after the first `n` replies keeps its value and
      its owner for good, whatever the later replies ask for. */
  lemma {:induction false} CollectedOnce(conId: string, cs: seq<Call>, n: nat, id: string, f: Field)
    requires n <= |cs| && f in Scalars(ApplyAll(Init(conId), cs[..n]), id)
    ensures var s, t := ApplyAll(Init(conId), cs[..n]), ApplyAll(Init(conId), cs);
            && f in Scalars(t, id) && Scalars(t, id)[f] == Scalars(s, id)[f]
            && Slot(f) in SlotsOf(OwnerOf(s, id)) && Slot(f) in SlotsOf(OwnerOf(t, id))
            && SlotsOf(OwnerOf(t, id))[Slot(f)] == SlotsOf(OwnerOf(s, id))[Slot(f)]
    decreases |cs|
  {
    hide ApplyAll, OwnerOf, Scalars, SlotsOf;
    if n == |cs| {
      assert cs[..n] == cs;
      AllBackedAlways(conId, cs);
      assert Backed(OwnerOf(ApplyAll(Init(conId), cs), id), Scalars(ApplyAll(Init(conId), cs), id));
    } else {
      var front := cs[..|cs| - 1];
      assert front[..n] == cs[..n];
      CollectedOnce(conId, front, n, id, f);
      LastStep(conId, cs, id);
    }
  }

  /** And its owner slot names the plugin whose reply set it. */
  lemma {:induction false} OwnerIsSetter(conId: string, cs: seq<Call>, id: string, f: Field)
    requires f in Scalars(ApplyAll(Init(conId), cs), id)
    ensures Slot(f) in SlotsOf(OwnerOf(ApplyAll(Init(conId), cs), id))
    ensures exists n :: && 0 <= n < |cs|
                        && f !in Scalars(ApplyAll(Init(conId), cs[..n]), id)
                        && f in Scalars(ApplyAll(Init(conId), cs[..n + 1]), id)
                        && cs[n].plugin != ""
                        && SlotsOf(OwnerOf(ApplyAll(Init(conId), cs), id))[Slot(f)] == cs[n].plugin
    decreases |cs|
  {
    hide OwnerOf, SlotsOf, Apply, ApplyAll;
    if cs == [] {
      NothingAtFirst(conId, id);
    } else {
      var m := |cs| - 1;
      var front := cs[..m];
      LastStep(conId, cs, id);
      if f in Scalars(ApplyAll(Init(conId), front), id) {
        OwnerIsSetter(conId, front, id, f);
        var n :| 0 <= n < |front| && f !in Scalars(ApplyAll(Init(conId), front[..n]), id)
                 && f in Scalars(ApplyAll(Init(conId), front[..n + 1]), id) && front[n].plugin != ""
                 && SlotsOf(OwnerOf(ApplyAll(Init(conId), front), id))[Slot(f)] == front[n].plugin;
        assert front[..n] == cs[..n] && front[..n + 1] == cs[..n + 1] && front[n] == cs[n];
      } else {
        assert cs[..m + 1] == cs;
        NamelessDoesNothing(conId, cs);
      }
    }
  }

  lemma NothingAtFirst(conId: string, id: string)
    ensures Scalars(ApplyAll(Init(conId), []), id) == map[]
  {
  }

  lemma NamelessDoesNothing(conId: string, cs: seq<Call>)
    requires cs != []
    ensures cs[|cs| - 1].plugin == "" ==> ApplyAll(Init(conId), cs) == ApplyAll(Init(conId), cs[..|cs| - 1])
  {
  }

  // ---------------------------------------------------------------- lists and owners

  /** The container is tracked, and the list agrees with the owners of its keys. */
  ghost predicate Tracked(s: Result, k: Kind)
  {
    s.conId in s.owners && Agree(ListOf(s, k), Owned(s.owners[s.conId], k))
  }

  ghost predicate KeepsTracked(s: Result, t: Result)
  {
    t.conId == s.conId && forall k :: k in ADJUSTED && Tracked(s, k) ==> Tracked(t, k)
  }

  lemma StoreTracked(s: Result, k: Kind, c: Collected)
    requires k in ADJUSTED
    requires Tracked(s, k) ==> c.owner.Some? && Agree(c.list, c.owner.value)
    requires c.owner.Some? <==> s.conId in s.owners
    ensures KeepsTracked(s, Store(s, k, c))
  {
  }

  lemma AdjustListTracked(s: Result, k: Kind, es: seq<Entry>, plugin: string)
    requires k in ADJUSTED
    ensures KeepsTracked(s, AdjustList(s, k, es, plugin).result)
  {
    hide Adjusted, Agree, Store;
    var c := Collect(s, k);
    AdjustedOwner(c, es, plugin);
    if Tracked(s, k) {
      AdjustedAgrees(c, es, plugin);
    }
    StoreTracked(s, k, Adjusted(c, es, plugin));
  }

  lemma AdjustedOwner(c: Collected, es: seq<Entry>, plugin: string)
    requires c.ok
    ensures Adjusted(c, es, plugin).owner.Some? <==> c.owner.Some?
  {
    hide Adjusted;
    AdjustedResult(c, es, plugin);
  }

  lemma RlimitsTracked(s: Result, es: seq<Entry>, plugin: string)
    ensures KeepsTracked(s, AdjustRlimits(s, es, plugin).result)
  {
    hide AddAll, Agree, Store;
    var c := Collect(s, Rlimits);
    AddAllOwners(c, es, plugin);
    if Tracked(s, Rlimits) {
      AddAllAgrees(c, es, plugin);
    }
    StoreTracked(s, Rlimits, AddAll(c, es, plugin));
  }

  /** Claims leave the lists and their owners alone. */
  lemma ClaimTracked(s: Result, t: Result, o: Option<Owners>)
    requires t.conId == s.conId && t.lists == s.lists
    requires OwnerOf(t, s.conId) == (if o.Some? then o else OwnerOf(s, s.conId))
    requires KeepsLists(OwnerOf(s, s.conId), o)
    ensures KeepsTracked(s, t)
  {
    hide Agree, Owned;
    forall k | k in ADJUSTED && Tracked(s, k)
      ensures Tracked(t, k)
    {
      assert k != HugepageLimits && k != Unified;
      assert Owned(Touched(o), k) == Owned(Touched(OwnerOf(s, s.conId)), k);
      assert Owned(t.owners[t.conId], k) == Owned(s.owners[s.conId], k);
    }
  }

  lemma AdjustResourcesTracked(s: Result, src: Option<Resources>, plugin: string)
    requires AllBacked(s)
    ensures KeepsTracked(s, AdjustResources(s, src, plugin).result)
  {
    hide ClaimResources, KeepsTracked, Backed, ClaimGrows, KeepsLists;
    match src
    case None => SameTracked(s, s);
    case Some(r) =>
      var c := ClaimResources(OwnerOf(s, s.conId), s.adjust, r, plugin);
      assert Backed(OwnerOf(s, s.conId), Scalars(s, s.conId));
      ClaimIsWriteOnce(OwnerOf(s, s.conId), s.adjust, r, plugin);
      ClaimTracked(s, AdjustResources(s, src, plugin).result, c.owner);
  }

  lemma SameTracked(s: Result, t: Result)
    requires t.conId == s.conId && t.lists == s.lists && OwnerOf(t, s.conId) == OwnerOf(s, s.conId)
    ensures KeepsTracked(s, t)
  {
  }

  lemma CgroupsPathTracked(s: Result, path: string, plugin: string)
    ensures KeepsTracked(s, AdjustCgroupsPath(s, path, plugin).result)
  {
    hide KeepsTracked;
    if path == "" {
      SameTracked(s, s);
    } else {
      var c := ClaimField(Claim(OwnerOf(s, s.conId), s.adjust, true), CgroupsPath,
                          Resources(map[CgroupsPath := path], [], []), plugin);
      ClaimTracked(s, AdjustCgroupsPath(s, path, plugin).result, c.owner);
    }
  }

  lemma LinuxTracked(s: Result, l: LinuxAdjustment, plugin: string)
    requires AllBacked(s)
    ensures KeepsTracked(s, AdjustLinux(s, l, plugin).result)
  {
    hide Adds, AllBacked, AdjustResources, AdjustCgroupsPath, Adjusted, Store, Tracked;
    var r1 := AdjustList(s, Devices, l.devices, plugin);
    StoreStep(s, Devices, Adjusted(Collect(s, Devices), l.devices, plugin), plugin);
    AdjustListTracked(s, Devices, l.devices, plugin);
    if r1.ok {
      var r2 := AdjustResources(r1.result, l.resources, plugin);
      AdjustResourcesTracked(r1.result, l.resources, plugin);
      if r2.ok {
        CgroupsPathTracked(r2.result, l.cgroupsPath, plugin);
      }
    }
  }

  lemma AdjustTracked(s: Result, a: Adjustment, plugin: string)
    requires AllBacked(s)
    ensures KeepsTracked(s, Adjust(s, a, plugin).result)
  {
    hide Adds, AllBacked, AdjustLinux, Adjusted, Store, AddAll, Tracked;
    if a.annotationsOk {
      var r1 := AdjustList(s, Mounts, a.mounts, plugin);
      StoreStep(s, Mounts, Adjusted(Collect(s, Mounts), a.mounts, plugin), plugin);
      AdjustListTracked(s, Mounts, a.mounts, plugin);
      if r1.ok {
        var r2 := AdjustList(r1.result, Env, a.env, plugin);
        StoreStep(r1.result, Env, Adjusted(Collect(r1.result, Env), a.env, plugin), plugin);
        AdjustListTracked(r1.result, Env, a.env, plugin);
        if r2.ok && !a.hooks {
          var r3 := if a.linux.Some? then AdjustLinux(r2.result, a.linux.value, plugin) else r2;
          if a.linux.Some? {
            LinuxTracked(r2.result, a.linux.value, plugin);
          }
          if r3.ok {
            RlimitsTracked(r3.result, a.rlimits, plugin);
          }
        }
      }
    }
  }

  lemma UpdateOneTracked(s: Result, u: Option<UpdateRequest>, plugin: string)
    ensures KeepsTracked(s, UpdateOne(s, u, plugin).result)
  {
    hide ClaimResources, KeepsTracked;
    SameTracked(s, UpdateOne(s, u, plugin).result);
  }

  lemma {:induction false} UpdateAllTracked(s: Result, us: seq<Option<UpdateRequest>>, plugin: string)
    ensures KeepsTracked(s, UpdateAll(s, us, plugin).result)
  {
    hide UpdateOne, Tracked;
    if us != [] {
      UpdateAllTracked(s, us[..|us| - 1], plugin);
      UpdateOneTracked(UpdateAll(s, us[..|us| - 1], plugin).result, us[|us| - 1], plugin);
    }
  }

  lemma ApplyTracked(s: Result, c: Call)
    requires AllBacked(s)
    ensures KeepsTracked(s, Apply(s, c).result)
  {
    hide AllBacked, Adjust, UpdateAll, Tracked;
    if c.plugin != "" {
      if c.event == CreateContainer {
        var r := if c.adjust.Some? then Adjust(s, c.adjust.value, c.plugin) else Outcome(s, true);
        if c.adjust.Some? {
          AdjustTracked(s, c.adjust.value, c.plugin);
        }
        if r.ok {
          UpdateAllTracked(r.result, c.updates, c.plugin);
        }
      } else if c.event != OtherEvent {
        UpdateAllTracked(s, c.updates, c.plugin);
      }
    }
  }

  /** Once a list of a tracked container agrees with its owners, it does so for good: no
      key is collected twice from then on, and each has exactly one owner. */
  lemma {:induction false} TrackedForGood(conId: string, cs: seq<Call>, n: nat, k: Kind)
    requires n <= |cs| && k in ADJUSTED && Tracked(ApplyAll(Init(conId), cs[..n]), k)
    ensures Tracked(ApplyAll(Init(conId), cs), k)
    decreases |cs|
  {
    hide Tracked, Apply, ApplyAll;
    if n == |cs| {
      assert cs[..n] == cs;
    } else {
      var front := cs[..|cs| - 1];
      assert front[..n] == cs[..n];
      TrackedForGood(conId, front, n, k);
      AllBackedAlways(conId, front);
      ApplyTracked(ApplyAll(Init(conId), front), cs[|cs| - 1]);
      Unfold(conId, cs);
    }
  }

  lemma Unfold(conId: string, cs: seq<Call>)
    requires cs != []
    ensures ApplyAll(Init(conId), cs) == Apply(ApplyAll(Init(conId), cs[..|cs| - 1]), cs[|cs| - 1]).result
  {
  }

  /** But tracking starts with the first scalar or cgroups path, and entries collected before that
      have no owner: the list agrees from then on exactly when it was still empty. */
  lemma TrackingStarts(s: Result, src: Resources, path: string, plugin: string, k: Kind)
    requires s.conId !in s.owners && k in ADJUSTED
    ensures var t := AdjustResources(s, Some(src), plugin).result;
            && (t.conId in t.owners <==> SetsScalar(src))
            && (Tracked(t, k) <==> SetsScalar(src) && ListOf(s, k) == [])
    ensures var t := AdjustCgroupsPath(s, path, plugin).result;
            && (t.conId in t.owners <==> path != "")
            && (Tracked(t, k) <==> path != "" && ListOf(s, k) == [])
  {
    hide ClaimResources, SetsScalar, AdjustResources, AdjustCgroupsPath, Tracked;
    ResourcesStart(s, src, plugin, k);
    PathStarts(s, path, plugin, k);
  }

  lemma ResourcesStart(s: Result, src: Resources, plugin: string, k: Kind)
    requires s.conId !in s.owners && k in ADJUSTED
    ensures var t := AdjustResources(s, Some(src), plugin).result;
            && (t.conId in t.owners <==> SetsScalar(src))
            && (Tracked(t, k) <==> SetsScalar(src) && ListOf(s, k) == [])
  {
    hide ClaimResources, SetsScalar;
    ClaimTouches(OwnerOf(s, s.conId), s.adjust, src, plugin);
    ClaimKeepsLists(OwnerOf(s, s.conId), s.adjust, src, plugin);
    var t := AdjustResources(s, Some(src), plugin).result;
    var c := ClaimResources(OwnerOf(s, s.conId), s.adjust, src, plugin);
    assert k != HugepageLimits && k != Unified && Touched(OwnerOf(s, s.conId)) == NOBODY;
    assert Owned(Touched(c.owner), k) == Owned(NOBODY, k) == map[];
    AgreesWithNobody(ListOf(s, k));
  }

  lemma PathStarts(s: Result, path: string, plugin: string, k: Kind)
    requires s.conId !in s.owners && k in ADJUSTED
    ensures var t := AdjustCgroupsPath(s, path, plugin).result;
            && (t.conId in t.owners <==> path != "")
            && (Tracked(t, k) <==> path != "" && ListOf(s, k) == [])
  {
    AgreesWithNobody(ListOf(s, k));
  }

  lemma AgreesWithNobody(list: seq<Entry>)
    ensures Agree(list, map[]) <==> list == []
  {
    if list != [] {
      assert list[0].key in Keys(list);
    } else {
      NoKeys();
    }
  }

  /** So two plugins can both add the same mount, unnoticed, before any resource is set. */
  lemma UntrackedDuplicate(conId: string)
    ensures var mount := Adjustment(true, [Entry("/data", "a")], [], false, None, []);
            var cs := [Call(CreateContainer, Some(mount), [], "p"), Call(CreateContainer, Some(mount), [], "q")];
            && ListOf(ApplyAll(Init(conId), cs), Mounts) == [Entry("/data", "a"), Entry("/data", "a")]
            && Apply(ApplyAll(Init(conId), cs[..1]), cs[1]).ok
  {
    hide Apply, ApplyAll;
    var e := Entry("/data", "a");
    var mount := Adjustment(true, [e], [], false, None, []);
    var c1, c2 := Call(CreateContainer, Some(mount), [], "p"), Call(CreateContainer, Some(mount), [], "q");
    OneMount(Init(conId), e, "p");
    OneMount(Apply(Init(conId), c1).result, e, "q");
    NoCalls(conId);
    Unfold(conId, [c1]);
    Unfold(conId, [c1, c2]);
    assert [c1, c2][..1] == [c1] && [c1][..0] == [];
  }

  /** A first reply that only removes a mount fails, and whatever else it asks for is dropped: the
      list it leaves is empty, and no array of size zero is handed out. */
  lemma RemovalAlone(conId: string, a: Adjustment, updates: seq<Option<UpdateRequest>>, plugin: string)
    requires a.annotationsOk && a.mounts == [Entry("-/data", "")]
    ensures Apply(Init(conId), Call(CreateContainer, Some(a), updates, plugin)) == Outcome(Init(conId), false)
  {
    hide AddAll, AdjustLinux, AdjustRlimits;
    assert a.mounts[..0] == [];
    assert Additions(a.mounts) == [];
    var c := Adjusted(Collect(Init(conId), Mounts), a.mounts, plugin);
    assert c == Collected([], None, false);
  }

  /** A reply with hooks always fails, and only its mounts and environment are kept: devices, resources,
      cgroups path, limits and updates are dropped. */
  lemma HooksFail(s: Result, a: Adjustment, updates: seq<Option<UpdateRequest>>, plugin: string)
    requires a.hooks
    ensures var r := Apply(s, Call(CreateContainer, Some(a), updates, plugin));
            && !r.ok
            && SameUpdates(s, r.result) && r.result.adjust == s.adjust
            && ListOf(r.result, Devices) == ListOf(s, Devices) && ListOf(r.result, Rlimits) == ListOf(s, Rlimits)
  {
    hide Adjusted, AdjustLinux, AdjustRlimits, UpdateAll;
  }

  lemma NoCalls(conId: string)
    ensures ApplyAll(Init(conId), []) == Init(conId)
  {
  }

  lemma OneMount(s: Result, e: Entry, plugin: string)
    requires s.conId !in s.owners && !Marked(e.key) && plugin != "" && ListOf(s, Env) == [] && ListOf(s, Rlimits) == []
    ensures var mount := Adjustment(true, [e], [], false, None, []);
            var r := Apply(s, Call(CreateContainer, Some(mount), [], plugin));
            && r.ok && r.result.conId == s.conId && r.result.conId !in r.result.owners
            && ListOf(r.result, Mounts) == ListOf(s, Mounts) + [e]
            && ListOf(r.result, Env) == [] && ListOf(r.result, Rlimits) == []
  {
    hide AddAll, Without, Additions, Removals;
    var c := Collect(s, Mounts);
    AdjustedResult(c, [e], plugin);
    OneAddition(c.list, e);
    var s1 := AdjustList(s, Mounts, [e], plugin).result;
    assert ListOf(s1, Mounts) == ListOf(s, Mounts) + [e] && ListOf(s1, Env) == [] && ListOf(s1, Rlimits) == [];
    var s2 := AdjustList(s1, Env, [], plugin).result;
    assert ListOf(s2, Mounts) == ListOf(s1, Mounts) && ListOf(s2, Env) == [] && ListOf(s2, Rlimits) == [];
    NoAdditions(Collect(s2, Rlimits), plugin);
  }

  lemma OneAddition(list: seq<Entry>, e: Entry)
    requires !Marked(e.key)
    ensures Without(list, Removals([e])) == list && Additions([e]) == [e]
  {
    assert forall x :: x in [e] ==> !Marked(x.key);
    assert Removals([e]) == {};
    WithoutNothing(list);
    assert [e][..0] == [];
  }

  lemma NoAdditions(c: Collected, plugin: string)
    ensures AddAll(c, [], plugin) == c
  {
  }

  // ---------------------------------------------------------------- the update index

  ghost predicate Requested(rs: seq<UpdateRequest>, id: string)
  {
    exists i :: 0 <= i < |rs| && rs[i].id == id
  }

  ghost predicate AllIgnore(rs: seq<UpdateRequest>, id: string)
  {
    forall i :: 0 <= i < |rs| && rs[i].id == id ==> rs[i].ignoreFailure
  }

  /** The reply lists every container that has an update exactly once, never the one being
      handled; an update exists exactly for the containers of accepted requests, and
      ignores failure exactly when all of those do. */
  ghost predicate Indexed(s: Result)
  {
    && (forall i, j :: 0 <= i < j < |s.order| ==> s.order[i] != s.order[j])
    && (forall id :: id in s.order <==> id in s.updates)
    && s.conId !in s.updates
    && (forall id :: id in s.updates <==> Requested(s.accepted, id))
    && (forall id :: id in s.updates ==> (s.updates[id].ignoreFailure <==> AllIgnore(s.accepted, id)))
  }

  lemma OneMoreRequest(rs: seq<UpdateRequest>, r: UpdateRequest, id: string)
    ensures Requested(rs + [r], id) <==> Requested(rs, id) || r.id == id
    ensures AllIgnore(rs + [r], id) <==> AllIgnore(rs, id) && (r.id == id ==> r.ignoreFailure)
    ensures !Requested(rs, id) ==> AllIgnore(rs, id)
  {
    var all := rs + [r];
    assert all[|rs|] == r && forall i :: 0 <= i < |rs| ==> all[i] == rs[i];
    if Requested(rs, id) {
      var i :| 0 <= i < |rs| && rs[i].id == id;
      assert all[i].id == id;
    }
  }

  lemma GetContainerUpdateIndexed(s: Result, u: Option<UpdateRequest>)
    requires Indexed(s)
    ensures Indexed(GetContainerUpdate(s, u).result)
  {
    hide Requested, AllIgnore;
    var t := GetContainerUpdate(s, u).result;
    if GetContainerUpdate(s, u).ok {
      forall id
        ensures id in t.updates <==> Requested(t.accepted, id)
        ensures id in t.updates ==> (t.updates[id].ignoreFailure <==> AllIgnore(t.accepted, id))
      {
        OneMoreRequest(s.accepted, u.value, id);
      }
    }
  }

  ghost predicate Granted(s: Result, id: string, src: Resources)
  {
    FreeScalars(OwnerOf(s, id), src) && FreeKeyed(OwnerOf(s, id), src)
  }

  /** What a request leaves: a rejected one nothing; a granted one its scalars, in the one update of its
      container, and so all it asks for exactly if it asks for nothing else; one that is not granted
      leaves the resources as they were. It is let pass exactly if it is granted or its failure is
      to be ignored. */
  lemma UpdateLeaves(s: Result, u: UpdateRequest, plugin: string)
    requires Indexed(s)
    ensures UpdateOne(s, None, plugin) == Outcome(s, false)
    ensures var t := UpdateOne(s, Some(u), plugin);
            if u.id == s.conId then t == Outcome(s, false)
            else
              var was := if u.id in s.updates then s.updates[u.id].resources else NOTHING;
              var src := if u.resources.Some? then u.resources.value else NOTHING;
              && t.result.updates.Keys == s.updates.Keys + {u.id}
              && (forall id :: id in s.updates && id != u.id ==> t.result.updates[id] == s.updates[id])
              && var now := t.result.updates[u.id].resources;
                 && (t.ok <==> u.ignoreFailure || u.resources.None? || Granted(s, u.id, src))
                 && (u.resources.Some? && Granted(s, u.id, src) ==>
                       && Merged(was.scalars, src.scalars.Keys - {CgroupsPath}, src.scalars, now.scalars)
                       && (LeavesAll(was, src, now) <==> src.hugepages == [] && src.unified == []))
                 && now.unified == was.unified && now.hugepages == was.hugepages
                 && (u.resources.None? || !Granted(s, u.id, src) ==> now == was)
  {
    hide ClaimResources, FreeScalars, FreeKeyed, Indexed, Merged, LeavesAll;
    if u.id != s.conId && u.resources.Some? {
      var r := GetContainerUpdate(s, Some(u)).result;
      assert OwnerOf(r, u.id) == OwnerOf(s, u.id);
      RequestGranted(OwnerOf(r, u.id), r.updates[u.id].resources, u.resources.value, plugin);
      GrantedIsCollected(OwnerOf(r, u.id), r.updates[u.id].resources, u.resources.value, plugin);
      LeavesAllIff(OwnerOf(r, u.id), r.updates[u.id].resources, u.resources.value, plugin);
      KeyedNotCollected(OwnerOf(r, u.id), r.updates[u.id].resources, u.resources.value, plugin);
    }
  }

  /** A slot that is owned although nothing was collected for it. */
  ghost predicate Lingers(s: Result, id: string, g: Field)
  {
    g in SlotsOf(OwnerOf(s, id)) && forall f :: f in Scalars(s, id) ==> Slot(f) != g
  }

  /** An update leaves new slots like that exactly when it is not granted: those it reached before the
      conflict. Later plugins are refused them although nobody set them. */
  lemma UpdateLingers(s: Result, u: UpdateRequest, plugin: string, g: Field)
    requires AllBacked(s) && u.id in s.updates && u.resources.Some?
    ensures var src := u.resources.value;
            Lingers(UpdateResources(s, u, plugin).result, u.id, g) <==>
            || Lingers(s, u.id, g)
            || (g !in SlotsOf(OwnerOf(s, u.id)) && !Granted(s, u.id, src) && Reached(OwnerOf(s, u.id), src, g))
  {
    hide ClaimResources, FreeKeyed, Reached, ClaimGrows, SlotsOf, Merged;
    var owner, src, dest := OwnerOf(s, u.id), u.resources.value, s.updates[u.id].resources;
    var c := ClaimResources(owner, dest, src, plugin);
    assert Backed(owner, Scalars(s, u.id));
    RequestGranted(owner, dest, src, plugin);
    ClaimReaches(owner, dest, src, plugin, g);
    ClaimTouches(owner, dest, src, plugin);
    if c.ok {
      ClaimPaired(owner, dest, src, plugin);
      GrantedIsCollected(owner, dest, src, plugin);
      if g in SlotsOf(owner) {
        OldSlots(dest.scalars, owner, src, c.dest.scalars, g);
      }
    }
  }

  lemma OldSlots(r: map<Field, string>, owner: Option<Owners>, src: Resources, r': map<Field, string>, g: Field)
    requires FreeScalars(owner, src) && Merged(r, src.scalars.Keys - {CgroupsPath}, src.scalars, r')
    requires g in SlotsOf(owner)
    ensures (forall f :: f in r ==> Slot(f) != g) <==> (forall f :: f in r' ==> Slot(f) != g)
  {
    assert forall f :: f in r ==> f in r';
  }

  /** A failing request for both realtime fields keeps the memory limit from everybody else: the limit
      is never set, and the next plugin that asks for it is refused. */
  lemma LingeringRefusal(conId: string)
    requires conId != "x"
    ensures var both := Resources(map[MemLimit := "1", CpuRealtimeRuntime := "2", CpuRealtimePeriod := "3"], [], []);
            var cs := [Call(UpdateContainer, None, [Some(UpdateRequest("x", true, Some(both)))], "p"),
                       Call(UpdateContainer, None, [Some(UpdateRequest("x", false, Some(MEMORY_LIMIT)))], "q")];
            && !Apply(ApplyAll(Init(conId), cs[..1]), cs[1]).ok
            && Scalars(ApplyAll(Init(conId), cs), "x") == map[]
  {
    hide Apply, ApplyAll, UpdateOne, Indexed, Granted, Reached, Lingers;
    var both := Resources(map[MemLimit := "1", CpuRealtimeRuntime := "2", CpuRealtimePeriod := "3"], [], []);
    var u1, u2 := UpdateRequest("x", true, Some(both)), UpdateRequest("x", false, Some(MEMORY_LIMIT));
    var c1, c2 := Call(UpdateContainer, None, [Some(u1)], "p"), Call(UpdateContainer, None, [Some(u2)], "q");
    var s1 := UpdateOne(Init(conId), Some(u1), "p").result;
    IndexedAtFirst(conId);
    UpdateOneIndexed(Init(conId), Some(u1), "p");
    UpdateLeaves(Init(conId), u1, "p");
    NotBoth(Init(conId), "x", both);
    FirstSlot(conId, u1, both);
    UpdateLeaves(s1, u2, "q");
    SlotTaken(s1, "x");
    OneUpdate(Init(conId), u1, "p");
    OneUpdate(s1, u2, "q");
    NoCalls(conId);
    Unfold(conId, [c1]);
    Unfold(conId, [c1, c2]);
    assert [c1, c2][..1] == [c1] && [c1][..0] == [];
    AllBackedAlways(conId, [c1]);
    AllBackedAlways(conId, [c1, c2]);
  }

  const MEMORY_LIMIT := Resources(map[MemLimit := "4"], [], [])

  lemma NotBoth(s: Result, id: string, src: Resources)
    requires CpuRealtimeRuntime in src.scalars && CpuRealtimePeriod in src.scalars
    ensures !Granted(s, id, src)
  {
  }

  lemma SlotTaken(s: Result, id: string)
    requires MemLimit in SlotsOf(OwnerOf(s, id))
    ensures !Granted(s, id, MEMORY_LIMIT)
  {
    assert Slot(MemLimit) == MemLimit && MemLimit in MEMORY_LIMIT.scalars;
  }

  lemma OneUpdate(s: Result, u: UpdateRequest, plugin: string)
    requires plugin != ""
    ensures Apply(s, Call(UpdateContainer, None, [Some(u)], plugin)) == UpdateOne(s, Some(u), plugin)
  {
    hide UpdateOne;
    assert [Some(u)][..0] == [];
    assert UpdateAll(s, [], plugin) == Outcome(s, true);
    assert UpdateAll(s, [Some(u)], plugin) == UpdateOne(s, Some(u), plugin);
  }

  lemma FirstSlot(conId: string, u: UpdateRequest, src: Resources)
    requires u.id != conId && u.resources == Some(src) && MemLimit in src.scalars
    ensures MemLimit in SlotsOf(OwnerOf(UpdateOne(Init(conId), Some(u), "p").result, u.id))
  {
    hide ClaimResources, Reached;
    var s := GetContainerUpdate(Init(conId), Some(u)).result;
    ClaimReaches(OwnerOf(s, u.id), s.updates[u.id].resources, src, "p", MemLimit);
    FirstReached(src);
    assert OwnerOf(s, u.id) == None && SlotsOf(None) == map[];
  }

  lemma FirstReached(src: Resources)
    requires MemLimit in src.scalars
    ensures Reached(None, src, MemLimit)
  {
    assert MEMORY_AND_CPU[..1] == [MemLimit];
    assert ClaimsAt(SlotsOf(None), MEMORY_AND_CPU, src.scalars, MemLimit, 0);
  }

  /** In the container being created nothing is left like that, since its resources are written in place. */
  lemma AdjustNeverLingers(s: Result, src: Option<Resources>, plugin: string, g: Field)
    requires AllBacked(s) && Lingers(AdjustResources(s, src, plugin).result, s.conId, g)
    ensures Lingers(s, s.conId, g)
  {
    hide ClaimResources, SlotsOf, Backed;
    if src.Some? {
      assert Backed(OwnerOf(s, s.conId), Scalars(s, s.conId));
      ClaimPaired(OwnerOf(s, s.conId), s.adjust, src.value, plugin);
      ClaimTouches(OwnerOf(s, s.conId), s.adjust, src.value, plugin);
      ClaimIsWriteOnce(OwnerOf(s, s.conId), s.adjust, src.value, plugin);
    }
  }

  lemma UpdateOneIndexed(s: Result, u: Option<UpdateRequest>, plugin: string)
    requires Indexed(s)
    ensures Indexed(UpdateOne(s, u, plugin).result)
  {
    hide ClaimResources, Indexed;
    GetContainerUpdateIndexed(s, u);
    var r := GetContainerUpdate(s, u);
    if r.ok {
      ResourcesIndexed(r.result, UpdateResources(r.result, u.value, plugin).result);
    }
  }

  /** Resources do not matter for the index. */
  lemma ResourcesIndexed(s: Result, t: Result)
    requires Indexed(s) && t.conId == s.conId && t.order == s.order && t.accepted == s.accepted
    requires t.updates.Keys == s.updates.Keys
    requires forall id :: id in s.updates ==> t.updates[id].ignoreFailure == s.updates[id].ignoreFailure
    ensures Indexed(t)
  {
  }

  lemma {:induction false} UpdateAllIndexed(s: Result, us: seq<Option<UpdateRequest>>, plugin: string)
    requires Indexed(s)
    ensures Indexed(UpdateAll(s, us, plugin).result)
  {
    hide UpdateOne, Indexed;
    if us != [] {
      UpdateAllIndexed(s, us[..|us| - 1], plugin);
      UpdateOneIndexed(UpdateAll(s, us[..|us| - 1], plugin).result, us[|us| - 1], plugin);
    }
  }

  lemma AdjustIndexed(s: Result, a: Adjustment, plugin: string)
    requires Indexed(s)
    ensures Indexed(Adjust(s, a, plugin).result)
  {
    hide Adjust;
    assert SameUpdates(s, Adjust(s, a, plugin).result);
  }

  /** Over every sequence of replies the index of updates stays exact. */
  lemma {:induction false} IndexAlways(conId: string, cs: seq<Call>)
    ensures Indexed(ApplyAll(Init(conId), cs))
  {
    hide Indexed, Adjust, UpdateAll;
    if cs == [] {
      IndexedAtFirst(conId);
    } else {
      IndexAlways(conId, cs[..|cs| - 1]);
      var s, c := ApplyAll(Init(conId), cs[..|cs| - 1]), cs[|cs| - 1];
      UpdateAllIndexed(s, c.updates, c.plugin);
      if c.adjust.Some? {
        AdjustIndexed(s, c.adjust.value, c.plugin);
        UpdateAllIndexed(Adjust(s, c.adjust.value, c.plugin).result, c.updates, c.plugin);
      }
    }
  }

  lemma IndexedAtFirst(conId: string)
    ensures Indexed(Init(conId))
  {
  }
}

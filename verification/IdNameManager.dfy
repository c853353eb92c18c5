/** The id and name manager: two sets under their own locks, and calls that have to keep
    them together. First the calls as they run one at a time, then any interleaving of
    them in which each operation on a set is one step. */
module IdNameManager {
  import opened Common

  /** What counts as a container id and as a container name. */
  datatype Rules = Rules(validId: string -> bool, validName: string -> bool)

  const MAX_TIME: nat := 10

  // ---------------------------------------------------------------- one call at a time

  class Manager {
    const rules: Rules
    var ids: set<string>
    var names: set<string>

    constructor (r: Rules)
      ensures rules == r && ids == {} && names == {}
    {
      rules := r;
      ids, names := {}, {};
    }

    method TryAddId(id: string) returns (ok: bool)
      modifies this`ids
      ensures ok <==> rules.validId(id) && id !in old(ids)
      ensures ids == if ok then old(ids) + {id} else old(ids)
    {
      if !rules.validId(id) || id in ids {
        return false;
      }
      ids := ids + {id};
      return true;
    }

    method TryAddName(name: string) returns (ok: bool)
      modifies this`names
      ensures ok <==> rules.validName(name) && name !in old(names)
      ensures names == if ok then old(names) + {name} else old(names)
    {
      if !rules.validName(name) || name in names {
        return false;
      }
      names := names + {name};
      return true;
    }

    method TryRemoveId(id: Option<string>) returns (ok: bool)
      modifies this`ids
      ensures ok <==> id.None? || (rules.validId(id.value) && id.value in old(ids))
      ensures ids == if ok && id.Some? then old(ids) - {id.value} else old(ids)
    {
      if id.None? {
        return true;
      }
      if !rules.validId(id.value) || id.value !in ids {
        return false;
      }
      ids := ids - {id.value};
      return true;
    }

    method TryRemoveName(name: Option<string>) returns (ok: bool)
      modifies this`names
      ensures ok <==> name.None? || (rules.validName(name.value) && name.value in old(names))
      ensures names == if ok && name.Some? then old(names) - {name.value} else old(names)
    {
      if name.None? {
        return true;
      }
      if !rules.validName(name.value) || name.value !in names {
        return false;
      }
      names := names - {name.value};
      return true;
    }

    /** Up to ten draws from the random source; a draw of `None` is a failing source. */
    method GetNewId(draws: seq<Option<string>>) returns (id: Option<string>)
      requires |draws| == MAX_TIME
      modifies this`ids
      ensures id.Some? ==> id.value !in old(ids) && rules.validId(id.value) && ids == old(ids) + {id.value}
      ensures id.None? ==> ids == old(ids)
      ensures id == FirstFree(draws, rules, old(ids))
    {
      var i := 0;
      assert draws[0..] == draws;
      while i < MAX_TIME
        invariant 0 <= i <= MAX_TIME && ids == old(ids)
        invariant FirstFree(draws[i..], rules, ids) == FirstFree(draws, rules, ids)
      {
        assert draws[i..][0] == draws[i] && draws[i..][1..] == draws[i + 1..];
        if draws[i].None? {
          break;
        }
        var ok := TryAddId(draws[i].value);
        if ok {
          return draws[i];
        }
        i := i + 1;
      }
      return None;
    }

    method AddEntryWithExistingId(id: Option<string>, name: Option<string>) returns (ok: bool)
      modifies this
      ensures ok <==> && id.Some? && name.Some? && rules.validId(id.value) && rules.validName(name.value)
                      && id.value !in old(ids) && name.value !in old(names)
      ensures if ok then ids == old(ids) + {id.value} && names == old(names) + {name.value}
              else ids == old(ids) && names == old(names)
    {
      if id.None? || name.None? {
        return false;
      }
      ok := TryAddId(id.value);
      if !ok {
        return;
      }
      ok := TryAddName(name.value);
      if !ok {
        var undone := TryRemoveId(id);
        assert ids == old(ids);
      }
    }

    /** Covers both entry points with a fresh id; without a name the id is the name. */
    method AddEntryWithNewId(name: Option<string>, draws: seq<Option<string>>) returns (id: Option<string>)
      requires |draws| == MAX_TIME
      modifies this
      ensures var free := FirstFree(draws, rules, old(ids));
              id.Some? <==> free.Some? &&
                            var n := if name.Some? then name.value else free.value;
                            rules.validName(n) && n !in old(names)
      ensures id.Some? ==>
                && id == FirstFree(draws, rules, old(ids)) && id.value !in old(ids)
                && ids == old(ids) + {id.value}
                && names == old(names) + {if name.Some? then name.value else id.value}
      ensures id.None? ==> ids == old(ids) && names == old(names)
    {
      id := GetNewId(draws);
      if id.None? {
        return;
      }
      var ok := TryAddName(if name.Some? then name.value else id.value);
      if !ok {
        var undone := TryRemoveId(id);
        assert ids == old(ids);
        id := None;
      }
    }

    method RemoveEntry(id: Option<string>, name: Option<string>) returns (ok: bool)
      modifies this
      ensures ids == if id.Some? && rules.validId(id.value) then old(ids) - {id.value} else old(ids)
      ensures names == if name.Some? && rules.validName(name.value) then old(names) - {name.value} else old(names)
      ensures ok <==> && (id.Some? ==> rules.validId(id.value) && id.value in old(ids))
                      && (name.Some? ==> rules.validName(name.value) && name.value in old(names))
    {
      var a := TryRemoveId(id);
      var b := TryRemoveName(name);
      ok := a && b;
    }

    method Rename(newName: Option<string>, oldName: Option<string>) returns (ok: bool)
      modifies this`names
      ensures ok <==> newName.Some? && oldName.Some? && rules.validName(newName.value) && newName.value !in old(names)
      ensures !ok ==> names == old(names)
      ensures ok ==> names == old(names) + {newName.value} - (if rules.validName(oldName.value) then {oldName.value} else {})
    {
      if oldName.None? || newName.None? {
        return false;
      }
      ok := TryAddName(newName.value);
      if !ok {
        return;
      }
      var removed := TryRemoveName(oldName);
    }
  }

  /** The first draw that is a free, valid id, if it comes before the source fails. */
  function FirstFree(draws: seq<Option<string>>, r: Rules, ids: set<string>): Option<string>
  {
    if draws == [] || draws[0].None? then None
    else if r.validId(draws[0].value) && draws[0].value !in ids then draws[0]
    else FirstFree(draws[1..], r, ids)
  }

  /** A draw that is taken or is no id. */
  predicate Unusable(draw: Option<string>, r: Rules, ids: set<string>)
  {
    draw.Some? && (!r.validId(draw.value) || draw.value in ids)
  }

  /** A draw is used exactly if it is a free, valid id and all draws before it are unusable; none is used
      exactly if the draws before the source fails, or all of them, are unusable. */
  lemma {:induction false} FirstFreeIs(draws: seq<Option<string>>, r: Rules, ids: set<string>, x: string)
    ensures FirstFree(draws, r, ids) == Some(x) <==>
            exists n :: 0 <= n < |draws| && draws[n] == Some(x) && r.validId(x) && x !in ids
                        && forall k :: 0 <= k < n ==> Unusable(draws[k], r, ids)
    ensures FirstFree(draws, r, ids) == None <==> exists n :: NoneUsable(draws, r, ids, n)
  {
    hide FirstFree;
    FirstFreeAt(draws, r, ids);
    var n := Stops(draws, r, ids);
    if FirstFree(draws, r, ids) == None {
      assert NoneUsable(draws, r, ids, n);
    }
  }

  /** The source fails at draw `n`, or `n` is the end, and no draw before it is usable. */
  ghost predicate NoneUsable(draws: seq<Option<string>>, r: Rules, ids: set<string>, n: nat)
  {
    && n <= |draws| && (n < |draws| ==> draws[n] == None)
    && forall k :: 0 <= k < n ==> Unusable(draws[k], r, ids)
  }

  /** How many draws are unusable before the first that is not. */
  function Stops(draws: seq<Option<string>>, r: Rules, ids: set<string>): (n: nat)
    ensures n <= |draws| && (n < |draws| ==> !Unusable(draws[n], r, ids))
    ensures forall k :: 0 <= k < n ==> Unusable(draws[k], r, ids)
  {
    if draws == [] || !Unusable(draws[0], r, ids) then 0 else 1 + Stops(draws[1..], r, ids)
  }

  lemma {:induction false} FirstFreeAt(draws: seq<Option<string>>, r: Rules, ids: set<string>)
    ensures var n := Stops(draws, r, ids);
            FirstFree(draws, r, ids) == if n < |draws| then draws[n] else None
  {
    if draws != [] && Unusable(draws[0], r, ids) {
      FirstFreeAt(draws[1..], r, ids);
    }
  }

  // ---------------------------------------------------------------- interleaved calls

  /** The life of one reservation: the call that makes it, then calls of its owner. */
  datatype Phase =
    | AddingId(tries: nat)     // `tries` draws left; one with a given id
    | AddingName
    | Undoing
    | Live
    | RenamingTo               // about to add the new name
    | RenamingFrom             // about to remove the old one
    | RemovingId
    | RemovingName
    | Failed
    | Gone

  datatype Reservation = Reservation(phase: Phase, id: string, name: string, newName: string, drawn: bool, nameIsId: bool)

  datatype State = State(ids: set<string>, names: set<string>, rs: seq<Reservation>)

  const EMPTY := State({}, {}, [])

  datatype Action =
    | WithExistingId(givenId: string, givenName: string)
    | WithNewId(givenName: string)
    | WithNewIdAndName
    | AddId(i: nat, candidate: string)
    | SourceFails(i: nat)
    | AddName(i: nat)
    | Undo(i: nat)
    | Rename(i: nat, to: string)
    | AddNewName(i: nat)
    | RemoveOldName(i: nat)
    | Remove(i: nat)
    | RemoveId(i: nat)
    | RemoveName(i: nat)

  predicate Enabled(s: State, a: Action)
  {
    if a.WithExistingId? || a.WithNewId? || a.WithNewIdAndName? then true
    else
      a.i < |s.rs| &&
      var r := s.rs[a.i];
      match a
      case AddId(_, c) => r.phase.AddingId? && r.phase.tries > 0 && (!r.drawn ==> c == r.id)
      case SourceFails(_) => r.phase.AddingId? && r.drawn
      case AddName(_) => r.phase.AddingName?
      case Undo(_) => r.phase.Undoing?
      case Rename(_, _) => r.phase.Live?
      case AddNewName(_) => r.phase.RenamingTo?
      case RemoveOldName(_) => r.phase.RenamingFrom?
      case Remove(_) => r.phase.Live?
      case RemoveId(_) => r.phase.RemovingId?
      case RemoveName(_) => r.phase.RemovingName?
      case _ => false
  }

  function Set(s: State, i: nat, r: Reservation): State
    requires i < |s.rs|
  {
    s.(rs := s.rs[i := r])
  }

  function Apply(v: Rules, s: State, a: Action): State
    requires Enabled(s, a)
  {
    match a
    case WithExistingId(id, name) => s.(rs := s.rs + [Reservation(AddingId(1), id, name, "", false, false)])
    case WithNewId(name) => s.(rs := s.rs + [Reservation(AddingId(MAX_TIME), "", name, "", true, false)])
    case WithNewIdAndName => s.(rs := s.rs + [Reservation(AddingId(MAX_TIME), "", "", "", true, true)])
    case AddId(i, c) =>
      var r := s.rs[i];
      if v.validId(c) && c !in s.ids then
        Set(s.(ids := s.ids + {c}), i, r.(phase := AddingName, id := c, name := if r.nameIsId then c else r.name))
      else Set(s, i, r.(phase := if r.phase.tries > 1 then AddingId(r.phase.tries - 1) else Failed))
    case SourceFails(i) => Set(s, i, s.rs[i].(phase := Failed))
    case AddName(i) =>
      var r := s.rs[i];
      if v.validName(r.name) && r.name !in s.names then Set(s.(names := s.names + {r.name}), i, r.(phase := Live))
      else Set(s, i, r.(phase := Undoing))
    case Undo(i) => Set(s.(ids := s.ids - {s.rs[i].id}), i, s.rs[i].(phase := Failed))
    case Rename(i, to) => Set(s, i, s.rs[i].(phase := RenamingTo, newName := to))
    case AddNewName(i) =>
      var r := s.rs[i];
      if v.validName(r.newName) && r.newName !in s.names
      then Set(s.(names := s.names + {r.newName}), i, r.(phase := RenamingFrom))
      else Set(s, i, r.(phase := Live))
    case RemoveOldName(i) =>
      var r := s.rs[i];
      Set(s.(names := s.names - {r.name}), i, r.(phase := Live, name := r.newName))
    case Remove(i) => Set(s, i, s.rs[i].(phase := RemovingId))
    case RemoveId(i) => Set(s.(ids := s.ids - {s.rs[i].id}), i, s.rs[i].(phase := RemovingName))
    case RemoveName(i) => Set(s.(names := s.names - {s.rs[i].name}), i, s.rs[i].(phase := Gone))
  }

  /** The id a reservation holds in the set of ids. */
  predicate HoldsId(r: Reservation, id: string)
  {
    r.id == id && r.phase in {AddingName, Undoing, Live, RenamingTo, RenamingFrom, RemovingId}
  }

  /** The names it holds in the set of names; two while it is being renamed. */
  predicate HoldsName(r: Reservation, name: string)
  {
    || (r.name == name && r.phase in {Live, RenamingTo, RenamingFrom, RemovingId, RemovingName})
    || (r.newName == name && r.phase.RenamingFrom?)
  }

  /** Every element of the sets is held by exactly one reservation. */
  ghost predicate Held(s: State)
  {
    && (forall i, x :: 0 <= i < |s.rs| && HoldsId(s.rs[i], x) ==> x in s.ids)
    && (forall i, x :: 0 <= i < |s.rs| && HoldsName(s.rs[i], x) ==> x in s.names)
    && (forall x :: x in s.ids ==> exists i :: 0 <= i < |s.rs| && HoldsId(s.rs[i], x))
    && (forall x :: x in s.names ==> exists i :: 0 <= i < |s.rs| && HoldsName(s.rs[i], x))
    && (forall i, j, x :: 0 <= i < j < |s.rs| && HoldsId(s.rs[i], x) ==> !HoldsId(s.rs[j], x))
    && (forall i, j, x :: 0 <= i < j < |s.rs| && HoldsName(s.rs[i], x) ==> !HoldsName(s.rs[j], x))
    && (forall i :: 0 <= i < |s.rs| && s.rs[i].phase.RenamingFrom? ==> s.rs[i].name != s.rs[i].newName)
  }

  /** One reservation changes from `r` to `r'`, the sets follow it. */
  ghost predicate Follows(s: State, s': State, i: nat, r': Reservation)
  {
    && i < |s.rs| && s'.rs == s.rs[i := r']
    && (forall x :: x in s'.ids <==> HoldsId(r', x) || (x in s.ids && !HoldsId(s.rs[i], x)))
    && (forall x :: x in s'.names <==> HoldsName(r', x) || (x in s.names && !HoldsName(s.rs[i], x)))
    && (forall x :: HoldsId(r', x) && !HoldsId(s.rs[i], x) ==> x !in s.ids)
    && (forall x :: HoldsName(r', x) && !HoldsName(s.rs[i], x) ==> x !in s.names)
    && (r'.phase.RenamingFrom? ==> r'.name != r'.newName)
  }

  lemma FollowsHeld(s: State, s': State, i: nat, r': Reservation)
    requires Held(s) && Follows(s, s', i, r')
    ensures Held(s')
  {
    forall x | x in s'.ids
      ensures exists j :: 0 <= j < |s'.rs| && HoldsId(s'.rs[j], x)
    {
      if HoldsId(r', x) {
        assert s'.rs[i] == r';
      } else {
        var j :| 0 <= j < |s.rs| && HoldsId(s.rs[j], x);
        assert s'.rs[j] == s.rs[j];
      }
    }
    forall x | x in s'.names
      ensures exists j :: 0 <= j < |s'.rs| && HoldsName(s'.rs[j], x)
    {
      if HoldsName(r', x) {
        assert s'.rs[i] == r';
      } else {
        var j :| 0 <= j < |s.rs| && HoldsName(s.rs[j], x);
        assert s'.rs[j] == s.rs[j];
      }
    }
  }

  lemma NewcomerHeld(s: State, r: Reservation)
    requires Held(s) && r.phase.AddingId?
    ensures Held(s.(rs := s.rs + [r]))
  {
    var s' := s.(rs := s.rs + [r]);
    forall x | x in s'.ids
      ensures exists j :: 0 <= j < |s'.rs| && HoldsId(s'.rs[j], x)
    {
      var j :| 0 <= j < |s.rs| && HoldsId(s.rs[j], x);
      assert s'.rs[j] == s.rs[j];
    }
    forall x | x in s'.names
      ensures exists j :: 0 <= j < |s'.rs| && HoldsName(s'.rs[j], x)
    {
      var j :| 0 <= j < |s.rs| && HoldsName(s.rs[j], x);
      assert s'.rs[j] == s.rs[j];
    }
  }

  lemma StepFollows(v: Rules, s: State, a: Action)
    requires Held(s) && Enabled(s, a) && !(a.WithExistingId? || a.WithNewId? || a.WithNewIdAndName?)
    ensures Follows(s, Apply(v, s, a), a.i, Apply(v, s, a).rs[a.i])
  {
    hide Held, Follows;
    if a.AddId? || a.SourceFails? || a.AddName? || a.Undo? {
      ReservingFollows(v, s, a);
    } else {
      OwningFollows(v, s, a);
    }
  }

  lemma ReservingFollows(v: Rules, s: State, a: Action)
    requires Held(s) && Enabled(s, a) && (a.AddId? || a.SourceFails? || a.AddName? || a.Undo?)
    ensures Follows(s, Apply(v, s, a), a.i, Apply(v, s, a).rs[a.i])
  {
    hide Held, Follows;
    match a
    case AddId(i, c) => AddIdFollows(v, s, i, c);
    case SourceFails(i) => SourceFollows(v, s, i);
    case AddName(i) => AddNameFollows(v, s, i);
    case Undo(i) => UndoFollows(v, s, i);
  }

  lemma AddIdFollows(v: Rules, s: State, i: nat, c: string)
    requires Held(s) && Enabled(s, AddId(i, c))
    ensures Follows(s, Apply(v, s, AddId(i, c)), i, Apply(v, s, AddId(i, c)).rs[i])
  {
    hide Held;
  }

  lemma SourceFollows(v: Rules, s: State, i: nat)
    requires Held(s) && Enabled(s, SourceFails(i))
    ensures Follows(s, Apply(v, s, SourceFails(i)), i, Apply(v, s, SourceFails(i)).rs[i])
  {
    hide Held;
  }

  lemma AddNameFollows(v: Rules, s: State, i: nat)
    requires Held(s) && Enabled(s, AddName(i))
    ensures Follows(s, Apply(v, s, AddName(i)), i, Apply(v, s, AddName(i)).rs[i])
  {
    hide Held;
    Mine(s, i);
  }

  lemma UndoFollows(v: Rules, s: State, i: nat)
    requires Held(s) && Enabled(s, Undo(i))
    ensures Follows(s, Apply(v, s, Undo(i)), i, Apply(v, s, Undo(i)).rs[i])
  {
    hide Held;
  }

  lemma OwningFollows(v: Rules, s: State, a: Action)
    requires Held(s) && Enabled(s, a)
    requires a.Rename? || a.AddNewName? || a.RemoveOldName? || a.Remove? || a.RemoveId? || a.RemoveName?
    ensures Follows(s, Apply(v, s, a), a.i, Apply(v, s, a).rs[a.i])
  {
    hide Held;
    Mine(s, a.i);
  }

  lemma Mine(s: State, i: nat)
    requires Held(s) && i < |s.rs|
    ensures HoldsId(s.rs[i], s.rs[i].id) ==> s.rs[i].id in s.ids
    ensures HoldsName(s.rs[i], s.rs[i].name) ==> s.rs[i].name in s.names
    ensures s.rs[i].phase.RenamingFrom? ==> s.rs[i].name != s.rs[i].newName && s.rs[i].newName in s.names
  {
    assert s.rs[i].phase.RenamingFrom? ==> HoldsName(s.rs[i], s.rs[i].newName);
  }

  lemma HeldStep(v: Rules, s: State, a: Action)
    requires Held(s) && Enabled(s, a)
    ensures Held(Apply(v, s, a))
  {
    hide Held, Follows;
    match a
    case WithExistingId(id, name) => NewcomerHeld(s, Reservation(AddingId(1), id, name, "", false, false));
    case WithNewId(name) => NewcomerHeld(s, Reservation(AddingId(MAX_TIME), "", name, "", true, false));
    case WithNewIdAndName => NewcomerHeld(s, Reservation(AddingId(MAX_TIME), "", "", "", true, true));
    case _ =>
      StepFollows(v, s, a);
      FollowsHeld(s, Apply(v, s, a), a.i, Apply(v, s, a).rs[a.i]);
  }

  ghost predicate Legal(v: Rules, s: State, run: seq<Action>)
    decreases |run|
  {
    run == [] || (Enabled(s, run[0]) && Legal(v, Apply(v, s, run[0]), run[1..]))
  }

  ghost function After(v: Rules, s: State, run: seq<Action>): State
    requires Legal(v, s, run)
    decreases |run|
  {
    if run == [] then s else After(v, Apply(v, s, run[0]), run[1..])
  }

  lemma {:induction false} HeldAlways(v: Rules, s: State, run: seq<Action>)
    requires Held(s) && Legal(v, s, run)
    ensures Held(After(v, s, run))
    decreases |run|
  {
    hide Held, Enabled, Apply;
    if run != [] {
      HeldStep(v, s, run[0]);
      HeldAlways(v, Apply(v, s, run[0]), run[1..]);
    }
  }

  predicate Settled(p: Phase)
  {
    p.Live? || p.Failed? || p.Gone?
  }

  /** Over every interleaving: no two live reservations share an id or a name; the sets hold
      exactly what live reservations and calls under way have put there; and once no call
      is under way, exactly the ids and names of the live ones, so that failed and removed
      reservations have left nothing behind. */
  lemma ReservationsAreSafe(v: Rules, run: seq<Action>)
    requires Legal(v, EMPTY, run)
    ensures var s := After(v, EMPTY, run);
            && Held(s)
            && (forall i, j :: 0 <= i < j < |s.rs| && s.rs[i].phase.Live? && s.rs[j].phase.Live? ==>
                  s.rs[i].id != s.rs[j].id && s.rs[i].name != s.rs[j].name)
            && ((forall i :: 0 <= i < |s.rs| ==> Settled(s.rs[i].phase)) ==>
                  && (forall x :: x in s.ids <==> exists i :: 0 <= i < |s.rs| && s.rs[i].phase.Live? && s.rs[i].id == x)
                  && (forall x :: x in s.names <==> exists i :: 0 <= i < |s.rs| && s.rs[i].phase.Live? && s.rs[i].name == x))
  {
    hide Legal, After;
    HeldAlways(v, EMPTY, run);
    var s := After(v, EMPTY, run);
    forall i, j | 0 <= i < j < |s.rs| && s.rs[i].phase.Live? && s.rs[j].phase.Live?
      ensures s.rs[i].id != s.rs[j].id && s.rs[i].name != s.rs[j].name
    {
      assert HoldsId(s.rs[i], s.rs[i].id) && HoldsName(s.rs[i], s.rs[i].name);
      assert HoldsId(s.rs[j], s.rs[j].id) && HoldsName(s.rs[j], s.rs[j].name);
    }
    if forall i :: 0 <= i < |s.rs| ==> Settled(s.rs[i].phase) {
      QuietSets(s);
    }
  }

  lemma QuietSets(s: State)
    requires Held(s) && forall i :: 0 <= i < |s.rs| ==> Settled(s.rs[i].phase)
    ensures forall x :: x in s.ids <==> exists i :: 0 <= i < |s.rs| && s.rs[i].phase.Live? && s.rs[i].id == x
    ensures forall x :: x in s.names <==> exists i :: 0 <= i < |s.rs| && s.rs[i].phase.Live? && s.rs[i].name == x
  {
    forall x
      ensures x in s.ids <==> exists i :: 0 <= i < |s.rs| && s.rs[i].phase.Live? && s.rs[i].id == x
      ensures x in s.names <==> exists i :: 0 <= i < |s.rs| && s.rs[i].phase.Live? && s.rs[i].name == x
    {
      if x in s.ids {
        var i :| 0 <= i < |s.rs| && HoldsId(s.rs[i], x);
        assert Settled(s.rs[i].phase);
      }
      if x in s.names {
        var i :| 0 <= i < |s.rs| && HoldsName(s.rs[i], x);
        assert Settled(s.rs[i].phase);
      }
      if i :| 0 <= i < |s.rs| && s.rs[i].phase.Live? && s.rs[i].id == x {
        assert HoldsId(s.rs[i], x);
      }
      if i :| 0 <= i < |s.rs| && s.rs[i].phase.Live? && s.rs[i].name == x {
        assert HoldsName(s.rs[i], x);
      }
    }
  }

  // ---------------------------------------------------------------- what is held is valid

  ghost predicate ValidHeld(v: Rules, s: State)
  {
    && (forall i, x :: 0 <= i < |s.rs| && HoldsId(s.rs[i], x) ==> v.validId(x))
    && (forall i, x :: 0 <= i < |s.rs| && HoldsName(s.rs[i], x) ==> v.validName(x))
  }

  lemma ValidSet(v: Rules, s: State, i: nat, r: Reservation)
    requires ValidHeld(v, s) && i < |s.rs|
    requires (forall x :: HoldsId(r, x) ==> v.validId(x)) && forall x :: HoldsName(r, x) ==> v.validName(x)
    ensures forall ids, names :: ValidHeld(v, Set(s.(ids := ids, names := names), i, r))
  {
  }

  lemma ValidStep(v: Rules, s: State, a: Action)
    requires ValidHeld(v, s) && Enabled(s, a)
    ensures ValidHeld(v, Apply(v, s, a))
  {
    if !(a.WithExistingId? || a.WithNewId? || a.WithNewIdAndName?) {
      ValidMine(v, s, a.i);
      ValidChange(v, s, a);
      ValidSet(v, s, a.i, Apply(v, s, a).rs[a.i]);
      var t := Apply(v, s, a);
      assert t == Set(s.(ids := t.ids, names := t.names), a.i, t.rs[a.i]);
    }
  }

  lemma ValidMine(v: Rules, s: State, i: nat)
    requires ValidHeld(v, s) && i < |s.rs|
    ensures HoldsId(s.rs[i], s.rs[i].id) ==> v.validId(s.rs[i].id)
    ensures HoldsName(s.rs[i], s.rs[i].name) ==> v.validName(s.rs[i].name)
    ensures HoldsName(s.rs[i], s.rs[i].newName) ==> v.validName(s.rs[i].newName)
  {
  }

  lemma ValidChange(v: Rules, s: State, a: Action)
    requires Enabled(s, a) && !(a.WithExistingId? || a.WithNewId? || a.WithNewIdAndName?)
    requires HoldsId(s.rs[a.i], s.rs[a.i].id) ==> v.validId(s.rs[a.i].id)
    requires HoldsName(s.rs[a.i], s.rs[a.i].name) ==> v.validName(s.rs[a.i].name)
    requires HoldsName(s.rs[a.i], s.rs[a.i].newName) ==> v.validName(s.rs[a.i].newName)
    ensures var r := Apply(v, s, a).rs[a.i];
            (forall x :: HoldsId(r, x) ==> v.validId(x)) && forall x :: HoldsName(r, x) ==> v.validName(x)
  {
  }

  lemma {:induction false} ValidAlways(v: Rules, s: State, run: seq<Action>)
    requires ValidHeld(v, s) && Legal(v, s, run)
    ensures ValidHeld(v, After(v, s, run))
    decreases |run|
  {
    hide ValidHeld, Enabled, Apply;
    if run != [] {
      ValidStep(v, s, run[0]);
      ValidAlways(v, Apply(v, s, run[0]), run[1..]);
    }
  }

  /** The removals of a run never miss: rollbacks, renames and removals find what they
      take out, and it is valid, so the warnings about failed removals are unreachable. */
  lemma RemovalsNeverMiss(v: Rules, run: seq<Action>, a: Action)
    requires Legal(v, EMPTY, run) && Enabled(After(v, EMPTY, run), a)
    ensures var s := After(v, EMPTY, run);
            && (a.Undo? || a.RemoveId? ==> s.rs[a.i].id in s.ids && v.validId(s.rs[a.i].id))
            && (a.RemoveOldName? || a.RemoveName? ==> s.rs[a.i].name in s.names && v.validName(s.rs[a.i].name))
  {
    hide Legal, After;
    HeldAlways(v, EMPTY, run);
    ValidAlways(v, EMPTY, run);
    var s := After(v, EMPTY, run);
    if a.Undo? || a.RemoveId? {
      assert HoldsId(s.rs[a.i], s.rs[a.i].id);
    } else if a.RemoveOldName? || a.RemoveName? {
      assert HoldsName(s.rs[a.i], s.rs[a.i].name);
    }
  }

  // ---------------------------------------------------------------- a call is a run of the steps

  ghost predicate Leads(v: Rules, s: State, run: seq<Action>, t: State)
  {
    Legal(v, s, run) && After(v, s, run) == t
  }

  ghost predicate Reaches(v: Rules, s: State, t: State)
  {
    exists run :: Leads(v, s, run, t)
  }

  lemma {:induction false} LeadsOn(v: Rules, s: State, run: seq<Action>, t: State, a: Action)
    requires Leads(v, s, run, t) && Enabled(t, a)
    ensures Leads(v, s, run + [a], Apply(v, t, a))
    decreases |run|
  {
    hide Enabled, Apply;
    if run == [] {
      assert [] + [a] == [a] && [a][1..] == [];
      assert Leads(v, Apply(v, t, a), [], Apply(v, t, a));
    } else {
      LeadsOn(v, Apply(v, s, run[0]), run[1..], t, a);
      assert (run + [a])[1..] == run[1..] + [a];
    }
  }

  lemma ReachesOn(v: Rules, s: State, t: State, a: Action)
    requires Reaches(v, s, t) && Enabled(t, a)
    ensures Reaches(v, s, Apply(v, t, a))
  {
    hide Leads, Enabled, Apply;
    var run :| Leads(v, s, run, t);
    LeadsOn(v, s, run, t, a);
  }

  lemma ReachesFirst(v: Rules, s: State, a: Action)
    requires Enabled(s, a)
    ensures Reaches(v, s, Apply(v, s, a))
  {
    hide Enabled, Apply;
    assert Leads(v, s, [], s);
    ReachesOn(v, s, s, a);
  }

  /** The end of a reserving call: the sets, and the reservation it leaves behind `s.rs`. */
  ghost predicate Ends(s: State, t: State, ids: set<string>, names: set<string>, ok: bool)
  {
    && t.ids == ids && t.names == names
    && |t.rs| == |s.rs| + 1 && t.rs[..|s.rs|] == s.rs
    && t.rs[|s.rs|].phase == if ok then Live else Failed
  }

  /** From a reserved id on: the name is added, or the id is taken out again. */
  lemma NamingEnds(v: Rules, s: State, t: State, id: string, name: string) returns (u: State)
    requires Reaches(v, s, t) && |t.rs| == |s.rs| + 1 && t.rs[..|s.rs|] == s.rs
    requires var r := t.rs[|s.rs|]; r.phase.AddingName? && r.id == id && r.name == name
    requires id !in s.ids && t.ids == s.ids + {id} && t.names == s.names
    ensures Reaches(v, s, u)
    ensures if v.validName(name) && name !in s.names then Ends(s, u, s.ids + {id}, s.names + {name}, true)
            else Ends(s, u, s.ids, s.names, false)
  {
    hide Reaches;
    var i := |s.rs|;
    ReachesOn(v, s, t, AddName(i));
    u := Apply(v, t, AddName(i));
    if u.rs[i].phase.Undoing? {
      ReachesOn(v, s, u, Undo(i));
      u := Apply(v, u, Undo(i));
      assert s.ids + {id} - {id} == s.ids;
    }
  }

  /** `AddEntryWithExistingId`, uninterrupted. */
  lemma ExistingIdIsRun(v: Rules, s: State, id: string, name: string) returns (u: State)
    ensures Reaches(v, s, u)
    ensures if v.validId(id) && id !in s.ids && v.validName(name) && name !in s.names
            then Ends(s, u, s.ids + {id}, s.names + {name}, true)
            else Ends(s, u, s.ids, s.names, false)
  {
    hide Reaches;
    var i := |s.rs|;
    ReachesFirst(v, s, WithExistingId(id, name));
    var t := Apply(v, s, WithExistingId(id, name));
    ReachesOn(v, s, t, AddId(i, id));
    u := Apply(v, t, AddId(i, id));
    if u.rs[i].phase.AddingName? {
      u := NamingEnds(v, s, u, id, name);
    }
  }

  /** The draws of a call with a fresh id. */
  lemma {:induction false} DrawsEnd(v: Rules, s: State, t: State, draws: seq<Option<string>>) returns (u: State)
    requires draws != [] && Reaches(v, s, t)
    requires |t.rs| == |s.rs| + 1 && t.rs[..|s.rs|] == s.rs && t.ids == s.ids && t.names == s.names
    requires var r := t.rs[|s.rs|]; r.phase == AddingId(|draws|) && r.drawn
    ensures Reaches(v, s, u)
    ensures var free, r := FirstFree(draws, v, s.ids), t.rs[|s.rs|];
            && (free.None? ==> Ends(s, u, s.ids, s.names, false))
            && (free.Some? ==>
                  && |u.rs| == |s.rs| + 1 && u.rs[..|s.rs|] == s.rs
                  && u.ids == s.ids + {free.value} && free.value !in s.ids && u.names == s.names
                  && u.rs[|s.rs|].phase.AddingName? && u.rs[|s.rs|].id == free.value
                  && u.rs[|s.rs|].name == if r.nameIsId then free.value else r.name)
    decreases |draws|
  {
    hide Reaches;
    var i := |s.rs|;
    if draws[0].None? {
      ReachesOn(v, s, t, SourceFails(i));
      u := Apply(v, t, SourceFails(i));
    } else {
      var c := draws[0].value;
      ReachesOn(v, s, t, AddId(i, c));
      u := Apply(v, t, AddId(i, c));
      if u.rs[i].phase.AddingId? {
        u := DrawsEnd(v, s, u, draws[1..]);
      }
    }
  }

  /** Both calls with a fresh id, uninterrupted. */
  lemma NewIdIsRun(v: Rules, s: State, name: Option<string>, draws: seq<Option<string>>) returns (u: State)
    requires |draws| == MAX_TIME
    ensures Reaches(v, s, u)
    ensures var free := FirstFree(draws, v, s.ids);
            var n := if name.Some? then name.value else if free.Some? then free.value else "";
            if free.Some? && v.validName(n) && n !in s.names
            then Ends(s, u, s.ids + {free.value}, s.names + {n}, true)
            else Ends(s, u, s.ids, s.names, false)
  {
    hide Reaches, FirstFree;
    var a := if name.Some? then WithNewId(name.value) else WithNewIdAndName;
    ReachesFirst(v, s, a);
    u := DrawsEnd(v, s, Apply(v, s, a), draws);
    var free := FirstFree(draws, v, s.ids);
    if free.Some? {
      u := NamingEnds(v, s, u, free.value, u.rs[|s.rs|].name);
    }
  }

  /** `Rename`, uninterrupted, by the owner of a live reservation. */
  lemma RenameIsRun(v: Rules, s: State, i: nat, newName: string) returns (u: State)
    requires i < |s.rs| && s.rs[i].phase.Live?
    ensures Reaches(v, s, u) && u.ids == s.ids
    ensures var ok := v.validName(newName) && newName !in s.names;
            && u.names == (if ok then s.names + {newName} - {s.rs[i].name} else s.names)
            && |u.rs| == |s.rs| && u.rs[i].phase.Live? && u.rs[i].name == if ok then newName else s.rs[i].name
  {
    hide Reaches;
    ReachesFirst(v, s, Rename(i, newName));
    var t := Apply(v, s, Rename(i, newName));
    ReachesOn(v, s, t, AddNewName(i));
    u := Apply(v, t, AddNewName(i));
    if u.rs[i].phase.RenamingFrom? {
      ReachesOn(v, s, u, RemoveOldName(i));
      u := Apply(v, u, RemoveOldName(i));
    }
  }

  /** `RemoveEntry`, uninterrupted, by the owner of a live reservation. */
  lemma RemoveIsRun(v: Rules, s: State, i: nat) returns (u: State)
    requires i < |s.rs| && s.rs[i].phase.Live?
    ensures Reaches(v, s, u)
    ensures u.ids == s.ids - {s.rs[i].id} && u.names == s.names - {s.rs[i].name}
    ensures |u.rs| == |s.rs| && u.rs[i].phase.Gone?
  {
    hide Reaches;
    ReachesFirst(v, s, Remove(i));
    var t := Apply(v, s, Remove(i));
    ReachesOn(v, s, t, RemoveId(i));
    t := Apply(v, t, RemoveId(i));
    ReachesOn(v, s, t, RemoveName(i));
    u := Apply(v, t, RemoveName(i));
  }
}

/** Mounts, environment and devices: how a plugin's list is merged into the one collected,
    with removal marks and per-key owners. */
module NriLists {
  import opened Common
  import opened NriClaims

  /** `is_marked_for_removal`: a leading dash, and something behind it. */
  predicate Marked(key: string)
  {
    |key| > 1 && key[0] == '-'
  }

  /** A collected list, the owners of its keys where the container is tracked, and
      whether no conflict was met. */
  datatype Collected = Collected(list: seq<Entry>, owner: Option<map<string, string>>, ok: bool)

  function Removals(es: seq<Entry>): set<string>
  {
    set e | e in es && Marked(e.key) :: e.key[1..]
  }

  function Additions(es: seq<Entry>): seq<Entry>
  {
    if es == [] then []
    else if Marked(es[|es| - 1].key) then Additions(es[..|es| - 1])
    else Additions(es[..|es| - 1]) + [es[|es| - 1]]
  }

  function Without(list: seq<Entry>, del: set<string>): seq<Entry>
  {
    if list == [] then []
    else
      var front := Without(list[..|list| - 1], del);
      if list[|list| - 1].key in del then front else front + [list[|list| - 1]]
  }

  /** The first half of an adjustment: take the removed keys out, with their owners. */
  function Cleared(c: Collected, del: set<string>): Collected
  {
    Collected(Without(c.list, del),
              if c.owner.Some? then Some(c.owner.value - (del * Keys(c.list))) else None, c.ok)
  }

  function Add(c: Collected, e: Entry, plugin: string): Collected
  {
    if !c.ok then c
    else if c.owner.None? then c.(list := c.list + [e])
    else if e.key in c.owner.value then c.(ok := false)
    else Collected(c.list + [e], Some(c.owner.value[e.key := plugin]), true)
  }

  function AddAll(c: Collected, es: seq<Entry>, plugin: string): Collected
  {
    if es == [] then c else Add(AddAll(c, es[..|es| - 1], plugin), es[|es| - 1], plugin)
  }

  /** `AdjustMounts`, `AdjustEnv`, `AdjustDevices`. The list is reallocated before the additions,
      and no array of size zero is handed out. */
  function Adjusted(c: Collected, es: seq<Entry>, plugin: string): Collected
  {
    if es == [] then c
    else
      var b := Cleared(c, Removals(es));
      if b.list == [] && Additions(es) == [] then b.(ok := false) else AddAll(b, Additions(es), plugin)
  }

  // ---------------------------------------------------------------- what comes out

  /** `list` is `kept` followed by a beginning of `added`. */
  ghost predicate Begun(list: seq<Entry>, kept: seq<Entry>, added: seq<Entry>)
  {
    exists n :: 0 <= n <= |added| && list == kept + added[..n]
  }

  lemma NothingBegun(kept: seq<Entry>, added: seq<Entry>)
    ensures Begun(kept, kept, added)
  {
    assert kept == kept + added[..0];
  }

  lemma {:induction false} AddAllList(c: Collected, es: seq<Entry>, plugin: string)
    requires c.ok
    ensures var d := AddAll(c, es, plugin);
            && (d.ok ==> d.list == c.list + es)
            && Begun(d.list, c.list, es)
  {
    if es == [] {
      NothingBegun(c.list, es);
    } else {
      var m := |es| - 1;
      var front := es[..m];
      AddAllList(c, front, plugin);
      var f, d := AddAll(c, front, plugin), AddAll(c, es, plugin);
      if d.ok {
        Snoc(c.list, es);
        assert es[..|es|] == es;
      } else {
        var n :| 0 <= n <= |front| && f.list == c.list + front[..n];
        assert front[..n] == es[..n];
      }
    }
  }

  lemma Snoc(a: seq<Entry>, es: seq<Entry>)
    requires es != []
    ensures a + es[..|es| - 1] + [es[|es| - 1]] == a + es
  {
  }

  lemma {:induction false} AddAllOwners(c: Collected, es: seq<Entry>, plugin: string)
    requires c.ok
    ensures var d := AddAll(c, es, plugin);
            && (c.owner.None? ==> d.ok && d.owner.None?)
            && (c.owner.Some? ==> d.owner.Some?)
            && (c.owner.Some? ==> (d.ok <==> DistinctKeys(es) && Keys(es) !! c.owner.value.Keys))
            && (c.owner.Some? && d.ok ==> d.owner.value.Keys == c.owner.value.Keys + Keys(es))
  {
    hide Keys, DistinctKeys;
    if es == [] {
      NoKeys();
    } else {
      var m := |es| - 1;
      AddAllOwners(c, es[..m], plugin);
      KeysSnoc(es[..m], es[m]);
      assert es == es[..m] + [es[m]];
    }
  }

  /** A successful adjustment leaves the old list without the removed keys, followed by the
      additions; a failing one has made a beginning of that. It succeeds exactly when nothing was
      asked, or something is left and, in a tracked container, no added key is taken. */
  lemma AdjustedResult(c: Collected, es: seq<Entry>, plugin: string)
    requires c.ok
    ensures var d := Adjusted(c, es, plugin);
            var kept, added := Without(c.list, Removals(es)), Additions(es);
            && (d.ok ==> d.list == kept + added)
            && Begun(d.list, kept, added)
            && (d.owner.Some? <==> c.owner.Some?)
            && (d.ok <==> es == [] || (kept + added != [] && (c.owner.Some? ==> Untaken(c, es))))
  {
    hide AddAll, Without, Additions, Untaken;
    if es == [] {
      NothingAsked(c);
    } else {
      var b, added := Cleared(c, Removals(es)), Additions(es);
      if b.list == [] && added == [] {
        NothingBegun(b.list, added);
      } else {
        AddAllList(b, added, plugin);
        AddAllOwners(b, added, plugin);
        if c.owner.Some? {
          UntakenIs(c, es);
        }
      }
    }
  }

  /** No added key is added twice or owned, unless its owner gives it up in the same adjustment. */
  ghost predicate Untaken(c: Collected, es: seq<Entry>)
    requires c.owner.Some?
  {
    && DistinctKeys(Additions(es))
    && forall k :: k in Keys(Additions(es)) && k in c.owner.value ==> k in Removals(es) && k in Keys(c.list)
  }

  lemma UntakenIs(c: Collected, es: seq<Entry>)
    requires c.owner.Some?
    ensures Untaken(c, es) <==>
            DistinctKeys(Additions(es)) && Keys(Additions(es)) !! Cleared(c, Removals(es)).owner.value.Keys
  {
    hide Without, Additions;
    var gone := Removals(es) * Keys(c.list);
    assert Cleared(c, Removals(es)).owner.value.Keys == c.owner.value.Keys - gone;
  }

  lemma NothingAsked(c: Collected)
    ensures Removals([]) == {} && Additions([]) == [] && Without(c.list, Removals([])) == c.list
    ensures c.list + [] == c.list && DistinctKeys([]) && Keys([]) == {}
    ensures Begun(c.list, c.list, [])
  {
    assert Removals([]) == {};
    WithoutNothing(c.list);
    NothingBegun(c.list, []);
  }

  lemma {:induction false} WithoutNothing(list: seq<Entry>)
    ensures Without(list, {}) == list
  {
    if list != [] {
      WithoutNothing(list[..|list| - 1]);
    }
  }

  // ---------------------------------------------------------------- lists and owners agree

  ghost predicate Agree(list: seq<Entry>, owner: map<string, string>)
  {
    DistinctKeys(list) && Keys(list) == owner.Keys
  }

  lemma {:induction false} WithoutDistinct(list: seq<Entry>, del: set<string>)
    requires DistinctKeys(list)
    ensures DistinctKeys(Without(list, del)) && Keys(Without(list, del)) == Keys(list) - del
  {
    hide DistinctKeys, Keys;
    if list == [] {
      NoKeys();
    } else {
      var m := |list| - 1;
      var front := list[..m];
      assert list == front + [list[m]];
      KeysSnoc(front, list[m]);
      WithoutDistinct(front, del);
      KeysSnoc(Without(front, del), list[m]);
    }
  }

  lemma {:induction false} AddAllAgrees(c: Collected, es: seq<Entry>, plugin: string)
    requires c.owner.Some? && Agree(c.list, c.owner.value)
    ensures var d := AddAll(c, es, plugin); d.owner.Some? && Agree(d.list, d.owner.value)
  {
    if es != [] {
      AddAllAgrees(c, es[..|es| - 1], plugin);
      var d := AddAll(c, es[..|es| - 1], plugin);
      KeysSnoc(d.list, es[|es| - 1]);
    }
  }

  /** Once a tracked list and its owners agree, every adjustment keeps that, even one that
      stops at a conflict. */
  lemma AdjustedAgrees(c: Collected, es: seq<Entry>, plugin: string)
    requires c.owner.Some? && Agree(c.list, c.owner.value)
    ensures var d := Adjusted(c, es, plugin); d.owner.Some? && Agree(d.list, d.owner.value)
  {
    hide AddAll, Without, Additions, Keys, DistinctKeys;
    if es != [] {
      var del := Removals(es);
      WithoutDistinct(c.list, del);
      var b := Cleared(c, del);
      assert b.owner.value.Keys == c.owner.value.Keys - del;
      AddAllAgrees(b, Additions(es), plugin);
    }
  }
}

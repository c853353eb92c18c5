/** Exactly which records the numbered family of log files holds, when no rename is refused. */
module LogRetention {
  import opened Common
  import opened LogSegments
  import opened R = LogRotation

  /** The records in groups, oldest first: a record joins the last group if that stays within a file,
      and otherwise begins one. */
  function Group(c: Config, gs: seq<seq<seq<byte>>>, rec: seq<byte>): (r: seq<seq<seq<byte>>>)
    requires gs != []
    ensures r != []
  {
    var n := |gs| - 1;
    if |Flatten(gs[n])| + |rec| <= c.maxSize then gs[..n] + [gs[n] + [rec]] else gs + [[Cropped(c, rec)]]
  }

  function GroupAll(c: Config, gs: seq<seq<seq<byte>>>, es: seq<Entry>): (r: seq<seq<seq<byte>>>)
    requires gs != []
    ensures r != []
    decreases |es|
  {
    if es == [] then gs else GroupAll(c, Group(c, gs, es[0].rec), es[1..])
  }

  /** The family holds the last groups, the newest in the live file, as many as there are numbers. */
  ghost predicate Latest(c: Config, f: Family, gs: seq<seq<seq<byte>>>)
  {
    && gs != []
    && (forall k: nat :: k in f <==> k <= c.Top() && k < |gs|)
    && (forall k: nat :: k in f ==> f[k] == gs[|gs| - 1 - k])
  }

  lemma GroupLatest(c: Config, f: Family, gs: seq<seq<seq<byte>>>, rec: seq<byte>)
    requires c.Valid() && Latest(c, f, gs) && Bounded(c, f)
    ensures Latest(c, DataWrite(c, f, rec, Faults(0, false)).files, Group(c, gs, rec))
  {
    hide RenameOld, Flatten;
    assert 0 in f && f[0] == gs[|gs| - 1];
    if !Fits(c, f, rec) {
      RenameOldOk(f, c.maxFile - 1, 0);
      var g := RenameOld(f, c.maxFile - 1, 0).0;
      forall k: nat
        ensures Look(g, k) == match Origin(f, c.maxFile - 1, k) { case None => None case Some(j) => Look(f, j) }
      {
        RenameOldIsShift(f, c.maxFile - 1, k);
      }
      Rotated(c, f, g, gs);
      var d := Rename(g, 0, 1)[0 := []];
      AppendLatest(c, d, gs + [[]], Cropped(c, rec));
      assert (gs + [[]])[..|gs|] == gs && [] + [Cropped(c, rec)] == [Cropped(c, rec)];
    } else {
      AppendLatest(c, f, gs, rec);
    }
  }

  lemma AppendLatest(c: Config, f: Family, gs: seq<seq<seq<byte>>>, piece: seq<byte>)
    requires Latest(c, f, gs)
    ensures 0 in f && Latest(c, Append(f, piece), gs[..|gs| - 1] + [gs[|gs| - 1] + [piece]])
  {
    assert 0 in f;
  }

  /** One rotation makes room for a new group. */
  lemma Rotated(c: Config, f: Family, g: Family, gs: seq<seq<seq<byte>>>)
    requires c.Valid() && Latest(c, f, gs)
    requires forall k: nat :: Look(g, k) == match Origin(f, c.maxFile - 1, k) { case None => None case Some(j) => Look(f, j) }
    ensures Latest(c, Rename(g, 0, 1)[0 := []], gs + [[]])
  {
    var h := Rename(g, 0, 1)[0 := []];
    forall k: nat
      ensures k in h <==> k <= c.Top() && k < |gs| + 1
      ensures k in h ==> h[k] == (gs + [[]])[|gs| - k]
    {
      assert Look(g, 0) == Look(f, 0) && 0 in g;
      assert Look(g, k) == match Origin(f, c.maxFile - 1, k) { case None => None case Some(j) => Look(f, j) };
    }
  }

  /** With working renames the files are exactly the last groups of what was written: nothing is lost
      while there are no more groups than numbers. */
  lemma {:induction false} FamilyIsLatest(c: Config, f: Family, gs: seq<seq<seq<byte>>>, es: seq<Entry>)
    requires c.Valid() && 0 in f && gs != [] && Latest(c, f, gs) && Bounded(c, f) && NoFaults(es)
    ensures Latest(c, R.Run(c, f, es).files, GroupAll(c, gs, es))
    decreases |es|
  {
    hide Latest, Bounded, DataWrite, Group, Stuck;
    if es != [] {
      GroupLatest(c, f, gs, es[0].rec);
      SizesAfter(c, f, es[0].rec, es[0].faults);
      NoFaultNotStuck(c, f, es[0].rec);
      FamilyIsLatest(c, DataWrite(c, f, es[0].rec, es[0].faults).files, Group(c, gs, es[0].rec), es[1..]);
    }
  }

  /** And the groups hold all records in order, each whole unless it is longer than a file. */
  lemma {:induction false} GroupsHoldAll(c: Config, gs: seq<seq<seq<byte>>>, es: seq<Entry>)
    requires gs != []
    ensures Flatten(GroupAll(c, gs, es)) == Flatten(gs) + AllCropped(c, es)
    decreases |es|
  {
    hide Flatten, Group;
    if es == [] {
      assert Flatten(gs) + [] == Flatten(gs);
    } else {
      GroupHolds(c, gs, es[0].rec);
      GroupsHoldAll(c, Group(c, gs, es[0].rec), es[1..]);
      Assoc(Flatten(gs), [Cropped(c, es[0].rec)], AllCropped(c, es[1..]));
    }
  }

  lemma GroupHolds(c: Config, gs: seq<seq<seq<byte>>>, rec: seq<byte>)
    requires gs != []
    ensures Flatten(Group(c, gs, rec)) == Flatten(gs) + [Cropped(c, rec)]
  {
    hide Flatten;
    var n := |gs| - 1;
    if |Flatten(gs[n])| + |rec| <= c.maxSize {
      assert gs == gs[..n] + [gs[n]];
      FlattenAppend(gs[..n], [gs[n]]);
      FlattenAppend(gs[..n], [gs[n] + [rec]]);
      FlattenOne(gs[n]);
      FlattenOne(gs[n] + [rec]);
      Assoc(Flatten(gs[..n]), gs[n], [rec]);
    } else {
      FlattenAppend(gs, [[Cropped(c, rec)]]);
      FlattenOne([Cropped(c, rec)]);
    }
  }
}

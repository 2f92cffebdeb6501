/** The data controller shared by the simulation's tables: it answers the cache's events with an update record and
    an operation on the inner cache. */
module DataController {
  import opened Records

  datatype DataControllerOp = Nop | Put | Revoke | Drop

  datatype Response = Response(op: DataControllerOp, update: Option<CacheUpdate>)

  datatype Answer = Answered(response: Response) | ModifiedDeletedKey

  // `wbdbc_on_new`
  function OnNew(immutable: bool, value: Row): Response {
    Response(if immutable then Put else Nop, Some(Insert(IntoActive(value))))
  }

  // `wbdc_on_delete`
  function OnDelete(immutable: bool, prev: Option<CacheUpdate>): Response {
    Response(if immutable && prev.Some? && prev.value.Insert? then Drop else Revoke, Some(Delete))
  }

  // `CacheUpdates::replace`: the new active model under the prior discriminant.
  function Replace(u: CacheUpdate, am: ActiveModel): CacheUpdate {
    match u
    case Insert(_) => Insert(am)
    case Update(_) => Update(am)
    case Delete => Delete
  }

  // The base model with the columns of `row` merged in: a column is written unless it is already `Unchanged` at
  // the new value.
  function Merged(base: ActiveModel, row: Row): ActiveModel {
    seq(|row|, i requires 0 <= i < |row| =>
      if i < |base| && base[i] == Unchanged(row[i]) then base[i] else Set(row[i]))
  }

  // Do two models have the columns they must share?  Guaranteed by the types of the original.
  predicate SameColumns(value: Row, prior: Row, prev: Option<CacheUpdate>) {
    |value| == |prior| && (prev.Some? && !prev.value.Delete? ==> |prev.value.am| == |value|)
  }

  function Base(prior: Row, prev: Option<CacheUpdate>): ActiveModel
    requires prev.Some? ==> !prev.value.Delete?
  {
    if prev.Some? then prev.value.am else IntoActive(prior)
  }

  // What `wbdc_on_change` answers.
  function OnChange(immutable: bool, value: Row, prior: Row, prev: Option<CacheUpdate>): Answer {
    if prev == Some(Delete) then ModifiedDeletedKey else
      var base := Base(prior, prev);
      if base == IntoActive(value) then Answered(Response(Nop, prev))
      else
        var am := Merged(base, value);
        Answered(Response(if immutable then Put else Nop,
                          Some(if prev.Some? then Replace(prev.value, am) else Update(am))))
  }

  // Some column is still to be written when the record changes to `value`: it differs from the old record, or the
  // pending model does not have it as `Unchanged` at the new value.
  predicate Writes(value: Row, prior: Row, prev: Option<CacheUpdate>)
    requires SameColumns(value, prior, prev)
  {
    if prev.None? || prev.value.Delete? then value != prior
    else exists i :: 0 <= i < |value| && prev.value.am[i] != Unchanged(value[i])
  }

  // A change is refused exactly for a deleted key; it is cached exactly when there is something to write and the
  // controller is immutable; and with nothing to write, what was pending stays as it was.
  lemma ChangeAnswers(immutable: bool, value: Row, prior: Row, prev: Option<CacheUpdate>)
    requires SameColumns(value, prior, prev)
    ensures var a := OnChange(immutable, value, prior, prev);
            && (a.ModifiedDeletedKey? <==> prev == Some(Delete))
            && (a.Answered? ==> a.response.op == if immutable && Writes(value, prior, prev) then Put else Nop)
            && (a.Answered? && !Writes(value, prior, prev) ==> a.response.update == prev)
            && (a.Answered? && Writes(value, prior, prev) ==>
                  a.response.update.Some? && forall i :: 0 <= i < |value| ==>
                    a.response.update.value.am[i].IntoValue() == Some(value[i]))
  {
    if prev != Some(Delete) {
      var base := Base(prior, prev);
      assert |base| == |value| == |IntoActive(value)|;
      if Writes(value, prior, prev) {
        if prev.None? {
          IntoActiveInjective(prior, value);
        } else {
          var i :| 0 <= i < |value| && base[i] != Unchanged(value[i]);
          assert base[i] != IntoActive(value)[i];
        }
      } else {
        assert forall i :: 0 <= i < |value| ==> base[i] == IntoActive(value)[i];
        assert base == IntoActive(value);
      }
    }
  }

  // `wbdc_on_change` as it runs: one pass over the columns, updating the previous active model in place.
  method WbdcOnChange(immutable: bool, value: Row, prior: Row, prev: Option<CacheUpdate>) returns (r: Answer)
    requires SameColumns(value, prior, prev)
    ensures r == OnChange(immutable, value, prior, prev)
    ensures prev == Some(Delete) <==> r.ModifiedDeletedKey?
    ensures r.Answered? ==> r.response.op == if immutable && Writes(value, prior, prev) then Put else Nop
    ensures r.Answered? && !Writes(value, prior, prev) ==> r.response.update == prev
  {
    if prev == Some(Delete) {
      return ModifiedDeletedKey;
    }
    var am := if prev.Some? then prev.value.am else IntoActive(prior);
    ghost var base := am;
    var newAm := IntoActive(value);
    var changed := false;
    for c := 0 to |newAm|
      invariant |am| == |base| == |newAm|
      invariant am[c..] == base[c..]
      invariant am[..c] == Merged(base, value)[..c]
      invariant changed <==> base[..c] != newAm[..c]
    {
      var newV := newAm[c];
      assert am[c] == am[c..][0] == base[c..][0];
      if am[c] != newV {
        changed := true;
        var v := newV.IntoValue();
        am := am[c := if v.Some? then Set(v.value) else NotSet];
      }
      assert base[..c + 1] == base[..c] + [base[c]] && newAm[..c + 1] == newAm[..c] + [newAm[c]];
      assert am[c + 1..] == base[c..][1..] == base[c + 1..];
      assert am[..c + 1] == Merged(base, value)[..c + 1];
    }
    assert am == am[..|newAm|] == Merged(base, value) && base == base[..|newAm|] && newAm == newAm[..|newAm|];
    var op := if changed && immutable then Put else Nop;
    var update := if changed then Some(if prev.None? then Update(am) else Replace(prev.value, am)) else prev;
    r := Answered(Response(op, update));
    ChangeAnswers(immutable, value, prior, prev);
  }

  // ---- What the answers mean for the pending record of one key.

  // A pending record (or none) that can be written over `cur` and makes `k` read as `seen`.
  ghost predicate Pends(k: Key, pending: Option<CacheUpdate>, cur: Option<Row>, seen: Option<Row>, width: nat) {
    && (cur.Some? ==> Fits(k, cur.value, width))
    && (pending.Some? ==> Coherent(k, pending.value, cur, width))
    && Seen(pending, cur) == seen
  }

  // A new record is cached exactly by an immutable controller; a deletion leaves the cache in any case, and the pool as
  // well exactly when an immutable controller finds an Insert that was never written.
  lemma NewAndDeleteAnswers(immutable: bool, value: Row, prev: Option<CacheUpdate>)
    ensures OnNew(immutable, value).op == Put <==> immutable
    ensures OnNew(immutable, value).op == Nop <==> !immutable
    ensures OnDelete(immutable, prev).op == Drop <==> immutable && prev.Some? && prev.value.Insert?
    ensures OnDelete(immutable, prev).op != Drop ==> OnDelete(immutable, prev) == Response(Revoke, Some(Delete))
  {
  }

  // A new record is pending correctly exactly when the backend has no row for its key yet.
  lemma NewPends(immutable: bool, k: Key, value: Row, cur: Option<Row>, width: nat)
    requires Fits(k, value, width)
    requires cur.Some? ==> Fits(k, cur.value, width)
    ensures cur.None? <==> Pends(k, OnNew(immutable, value).update, cur, Some(value), width)
  {
    assert Stored(IntoActive(value)) == value;
  }

  // A deletion hides the row.  `Drop` is answered only when the row never reached the backend, so forgetting the
  // pending record altogether hides it as well.
  lemma DeletePends(immutable: bool, k: Key, pending: Option<CacheUpdate>, cur: Option<Row>, seen: Option<Row>,
                    width: nat)
    requires Pends(k, pending, cur, seen, width)
    ensures Pends(k, OnDelete(immutable, pending).update, cur, None, width)
    ensures OnDelete(immutable, pending).op == Drop ==> Pends(k, None, cur, None, width)
  {
  }

  // One change: the merged record reads as the new value, keeps its discriminant, and the refusal cannot happen
  // while the key still reads as a record.
  lemma ChangePends(immutable: bool, k: Key, value: Row, prior: Row, pending: Option<CacheUpdate>, cur: Option<Row>,
                    width: nat)
    requires Fits(k, value, width)
    requires Pends(k, pending, cur, Some(prior), width)
    ensures Fits(k, prior, width) && SameColumns(value, prior, pending)
    ensures var a := OnChange(immutable, value, prior, pending);
            && a.Answered?
            && Pends(k, a.response.update, cur, Some(value), width)
            && (a.response.update.Some? <==> pending.Some? || value != prior)
            && (pending.Some? ==> (a.response.update.value.Insert? <==> pending.value.Insert?))
            && (pending.None? && value != prior ==> a.response.update.value.Update?)
            && (a.response.op == Nop && immutable ==> value == prior)
  {
    SeenFits(k, pending, cur, prior, width);
    var base := Base(prior, pending);
    if base == IntoActive(value) {
      UnchangedIsOld(k, value, prior, pending, cur, width);
    } else {
      var am := Merged(base, value);
      assert forall i :: 0 <= i < width ==> am[i].IntoValue() == Some(value[i]);
      if pending.Some? && pending.value.Insert? {
        assert Stored(am) == value;
      } else {
        assert Patched(cur.value, am) == value;
      }
    }
  }

  lemma SeenFits(k: Key, pending: Option<CacheUpdate>, cur: Option<Row>, seen: Row, width: nat)
    requires Pends(k, pending, cur, Some(seen), width)
    ensures Fits(k, seen, width)
    ensures pending != Some(Delete)
  {
  }

  // A merge that finds nothing to write has been given the value the key already reads as.
  lemma UnchangedIsOld(k: Key, value: Row, prior: Row, pending: Option<CacheUpdate>, cur: Option<Row>, width: nat)
    requires Fits(k, value, width)
    requires Pends(k, pending, cur, Some(prior), width) && pending != Some(Delete)
    requires Base(prior, pending) == IntoActive(value)
    ensures value == prior
  {
    var base := Base(prior, pending);
    assert forall i :: 0 <= i < width ==> base[i] == Unchanged(value[i]);
    if pending.None? {
      assert forall i :: 0 <= i < width ==> base[i] == Unchanged(prior[i]);
      assert value == prior;
    } else if pending.value.Insert? {
      assert Stored(base) == value;
    } else {
      assert Patched(cur.value, base) == value;
    }
  }

  lemma IntoActiveInjective(a: Row, b: Row)
    ensures IntoActive(a) == IntoActive(b) ==> a == b
  {
    if IntoActive(a) == IntoActive(b) {
      assert |a| == |IntoActive(a)| == |b|;
      forall i | 0 <= i < |a| ensures a[i] == b[i] {
        assert IntoActive(a)[i] == Unchanged(a[i]) && IntoActive(b)[i] == Unchanged(b[i]);
      }
    }
  }

  // ---- Telescoping: any number of changes collapses into one record.

  // The pending record after the values `vs` have been submitted one after the other.
  function Fold(immutable: bool, prior: Row, prev: Option<CacheUpdate>, vs: seq<Row>): Option<CacheUpdate>
    requires prev != Some(Delete)
    requires forall v :: v in vs ==> |v| == |prior|
    requires prev.Some? ==> |prev.value.am| == |prior|
    decreases |vs|
  {
    if vs == [] then prev
    else Fold(immutable, vs[0], OnChange(immutable, vs[0], prior, prev).response.update, vs[1..])
  }

  lemma ChangedOnce(immutable: bool, k: Key, value: Row, prior: Row, prev: Option<CacheUpdate>, cur: Option<Row>,
                    width: nat)
    requires Pends(k, prev, cur, Some(prior), width) && prev != Some(Delete) && Fits(k, value, width)
    ensures Fits(k, prior, width) && (prev.Some? ==> |prev.value.am| == |prior|)
    ensures var u := OnChange(immutable, value, prior, prev).response.update;
            && Pends(k, u, cur, Some(value), width) && u != Some(Delete)
            && (prev.Some? ==> u.Some? && (u.value.Insert? <==> prev.value.Insert?))
            && (prev.None? && u.Some? ==> u.value.Update?)
  {
    ChangePends(immutable, k, value, prior, prev, cur, width);
  }

  // Diff merging telescopes: whatever was pending, the one remaining record turns the backend row into the last
  // value submitted; an Insert stays an Insert.
  lemma {:induction false} FoldTelescopes(immutable: bool, k: Key, prior: Row, prev: Option<CacheUpdate>, vs: seq<Row>,
                                          cur: Option<Row>, width: nat)
    requires Pends(k, prev, cur, Some(prior), width) && prev != Some(Delete)
    requires forall v :: v in vs ==> Fits(k, v, width)
    ensures Fits(k, prior, width) && (prev.Some? ==> |prev.value.am| == |prior|)
    ensures forall v :: v in vs ==> |v| == |prior|
    ensures var u := Fold(immutable, prior, prev, vs);
            && Pends(k, u, cur, Some(if vs == [] then prior else vs[|vs| - 1]), width)
            && (prev.Some? ==> u.Some? && (u.value.Insert? <==> prev.value.Insert?))
            && (prev.None? && u.Some? ==> u.value.Update?)
    decreases |vs|
  {
    SeenFits(k, prev, cur, prior, width);
    if vs != [] {
      assert vs[0] in vs && forall v :: v in vs[1..] ==> v in vs;
      ChangedOnce(immutable, k, vs[0], prior, prev, cur, width);
      var u := OnChange(immutable, vs[0], prior, prev).response.update;
      FoldTelescopes(immutable, k, vs[0], u, vs[1..], cur, width);
      assert Fold(immutable, prior, prev, vs) == Fold(immutable, vs[0], u, vs[1..]);
      assert |vs| > 1 ==> vs[1..][|vs| - 2] == vs[|vs| - 1];
    }
  }

  // A column is written by the merged record exactly when some submitted value differed there from the record the
  // changes started with.
  lemma {:induction false} FoldWritesWhatDiffered(immutable: bool, prior: Row, vs: seq<Row>, c: nat)
    requires c < |prior| && forall v :: v in vs ==> |v| == |prior|
    ensures var u := Fold(immutable, prior, None, vs);
            && (u.Some? ==> u.value.Update? && |u.value.am| == |prior|)
            && ((u.Some? && u.value.am[c].Set?) <==> exists j :: 0 <= j < |vs| && vs[j][c] != prior[c])
    decreases |vs|
  {
    if vs != [] {
      assert vs[0] in vs;
      var u := OnChange(immutable, vs[0], prior, None).response.update;
      if vs[0] == prior {
        assert IntoActive(prior) == IntoActive(vs[0]);
        FoldWritesWhatDiffered(immutable, prior, vs[1..], c);
      } else {
        IntoActiveInjective(prior, vs[0]);
        assert u == Some(Update(Merged(IntoActive(prior), vs[0])));
        FoldKeepsWritten(immutable, vs[0], u.value.am, prior, vs[1..], c);
      }
      assert forall j :: 0 < j < |vs| ==> vs[j] == vs[1..][j - 1];
    }
  }

  // From a pending Update whose column `c` is either written or still equal to `start[c]`, folding writes `c` when
  // it was written already or some later value differs from `start[c]`.
  lemma {:induction false} FoldKeepsWritten(immutable: bool, prior: Row, am: ActiveModel, start: Row, vs: seq<Row>,
                                            c: nat)
    requires |prior| == |am| == |start| && c < |prior| && forall v :: v in vs ==> |v| == |prior|
    requires am[c].Set? || am[c] == Unchanged(start[c])
    ensures var u := Fold(immutable, prior, Some(Update(am)), vs);
            && u.Some? && u.value.Update? && |u.value.am| == |prior|
            && (u.value.am[c].Set? <==> am[c].Set? || exists j :: 0 <= j < |vs| && vs[j][c] != start[c])
    decreases |vs|
  {
    if vs != [] {
      assert vs[0] in vs;
      var u := OnChange(immutable, vs[0], prior, Some(Update(am))).response.update;
      assert u.value.am[c] == (if am[c] == Unchanged(vs[0][c]) then am[c] else Set(vs[0][c])) by {
        if am == IntoActive(vs[0]) {
          assert am[c] == Unchanged(vs[0][c]);
        }
      }
      FoldKeepsWritten(immutable, vs[0], u.value.am, start, vs[1..], c);
      assert forall j :: 0 < j < |vs| ==> vs[j] == vs[1..][j - 1];
      if exists j :: 0 <= j < |vs[1..]| && vs[1..][j][c] != start[c] {
        var j :| 0 <= j < |vs[1..]| && vs[1..][j][c] != start[c];
        assert vs[j + 1][c] != start[c];
      }
    }
  }
}

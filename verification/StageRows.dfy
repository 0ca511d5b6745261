/** Ordered stage rows: RecruitmentStage rows owned by a job and
    PipelineStageTemplate rows owned by a template. Neither table forces names
    or orders to be unique, so every statement here allows duplicates. */
module StageRows {
  import opened Common

  datatype Row = Row(owner: Id, name: string, order: nat)

  type Table = map<Id, Row>

  ghost function OwnedBy(t: Table, owner: Id): set<Id> {
    set id | id in t && t[id].owner == owner
  }

  ghost predicate HasRows(t: Table, owner: Id) {
    exists id :: id in t && t[id].owner == owner
  }

  // --------------------------------------------------------------- listings

  /** A result of findMany over one owner's rows, orderBy order asc; rows with
      equal orders may come in any sequence. */
  ghost predicate IsListing(t: Table, owner: Id, ids: seq<Id>) {
    && Distinct(ids)
    && (forall id :: id in ids <==> id in t && t[id].owner == owner)
    && (forall i, j :: 0 <= i < j < |ids| ==> t[ids[i]].order <= t[ids[j]].order)
  }

  /** The listing shows exactly these names, numbered 0..n-1. */
  ghost predicate Reads(t: Table, ids: seq<Id>, names: seq<string>) {
    && |ids| == |names|
    && forall i :: 0 <= i < |ids| ==> ids[i] in t && t[ids[i]].name == names[i] && t[ids[i]].order == i
  }

  /** The same, said of the rows alone: order is a bijection from the owner's
      rows to the positions of names, and each row carries the name at its order. */
  ghost predicate Exact(t: Table, owner: Id, names: seq<string>) {
    && (forall id :: id in t && t[id].owner == owner ==> t[id].order < |names| && t[id].name == names[t[id].order])
    && (forall x, y :: x in t && y in t && t[x].owner == owner && t[y].owner == owner && t[x].order == t[y].order ==>
      x == y)
    && (forall i :: 0 <= i < |names| ==> RowAt(t, owner, i))
  }

  ghost predicate RowAt(t: Table, owner: Id, i: int) {
    exists id :: id in t && t[id].owner == owner && t[id].order == i
  }

  /** Whatever listing the store returns, it reads the names exactly when the
      rows are exact. */
  lemma ListingReads(t: Table, owner: Id, ids: seq<Id>, names: seq<string>)
    requires IsListing(t, owner, ids)
    ensures Reads(t, ids, names) <==> Exact(t, owner, names)
  {
    forall i | 0 <= i < |ids| ensures ids[i] in t && t[ids[i]].owner == owner {
      assert ids[i] in ids;
    }
    if Exact(t, owner, names) {
      ExactListing(t, owner, ids, names, |names|);
      forall i | 0 <= i < |ids|
        ensures t[ids[i]].order == i < |names|
      {
        var o := t[ids[i]].order;
        assert ids[o] == ids[i];
      }
      if ids != [] {
        assert t[ids[|ids| - 1]].order == |ids| - 1;
      }
    }
    if Reads(t, ids, names) {
      forall x | x in t && t[x].owner == owner
        ensures t[x].order < |names| && ids[t[x].order] == x && t[x].name == names[t[x].order]
      {
        assert x in ids;
      }
      forall i | 0 <= i < |names| ensures RowAt(t, owner, i) {
        assert t[ids[i]].order == i;
      }
    }
  }

  lemma {:induction false} ExactListing(t: Table, owner: Id, ids: seq<Id>, names: seq<string>, k: nat)
    requires IsListing(t, owner, ids) && Exact(t, owner, names) && k <= |names|
    ensures k <= |ids|
    ensures forall i :: 0 <= i < k ==> ids[i] in t && t[ids[i]].order == i
  {
    if k > 0 {
      ExactListing(t, owner, ids, names, k - 1);
      assert RowAt(t, owner, k - 1);
      var id :| id in t && t[id].owner == owner && t[id].order == k - 1;
      assert id in ids;
      var j :| 0 <= j < |ids| && ids[j] == id;
      assert j >= k - 1;
      var here := ids[k - 1];
      assert here in ids;
      if k > 1 {
        var before := ids[k - 2];
        assert before in ids && before != here && t[before].order == k - 2;
      }
    }
  }

  // ------------------------------------------------------------- the edit

  /** One reusable row per name the owner's rows carry: new Map(existing.map(s =>
      [s.name, s])). Which row wins for a repeated name depends on the scan. */
  ghost predicate IsIndex(t: Table, owner: Id, index: map<string, Id>) {
    && (forall n :: n in index ==> index[n] in t && t[index[n]].owner == owner && t[index[n]].name == n)
    && (forall id :: id in t && t[id].owner == owner ==> t[id].name in index)
  }

  /** Rows whose name the request no longer contains. */
  function Dropped(t: Table, owner: Id, names: seq<string>): set<Id> {
    set id | id in t && t[id].owner == owner && t[id].name !in names
  }

  /** The first k names written in turn: an indexed name moves its row to
      position k, any other name gets a new row there. */
  function Place(t: Table, owner: Id, names: seq<string>, index: map<string, Id>, base: Id, k: nat): Table
    requires k <= |names|
  {
    if k == 0 then t else
      var before := Place(t, owner, names, index, base, k - 1);
      var name := names[k - 1];
      if name in index then
        if index[name] in before then before[index[name] := before[index[name]].(order := k - 1)] else before
      else before[base + k - 1 := Row(owner, name, k - 1)]
  }

  /** setStages once the removal is allowed: drop, then place every name. */
  function Edit(t: Table, owner: Id, names: seq<string>, index: map<string, Id>, base: Id): Table {
    Place(t - Dropped(t, owner, names), owner, names, index, base, |names|)
  }

  function Without(t: Table, owner: Id): Table {
    map id | id in t && t[id].owner != owner :: t[id]
  }

  /** The naive edit: delete all the owner's rows, then create one per name. */
  function Recreate(t: Table, owner: Id, names: seq<string>, base: Id): Table {
    Place(Without(t, owner), owner, names, map[], base, |names|)
  }

  /** Last position of a name. */
  function Last(names: seq<string>, name: string): (i: nat)
    requires name in names
    ensures i < |names| && names[i] == name
    ensures forall j :: i < j < |names| ==> names[j] != name
  {
    if names[|names| - 1] == name then |names| - 1 else
      assert names == names[..|names| - 1] + [names[|names| - 1]];
      Last(names[..|names| - 1], name)
  }

  lemma LastIs(names: seq<string>, i: nat)
    requires i < |names| && forall j :: i < j < |names| ==> names[j] != names[i]
    ensures Last(names, names[i]) == i
  {
  }

  ghost predicate Below(t: Table, base: Id) {
    forall id :: id in t ==> id < base
  }

  /** The new row for the position it was created at. */
  predicate Created(names: seq<string>, index: map<string, Id>, base: Id, k: nat, id: Id) {
    base <= id < base + k <= base + |names| && names[id - base] !in index
  }

  /** The row is the one the index holds for its name. */
  predicate Indexed(t: Table, index: map<string, Id>, id: Id)
    requires id in t
  {
    t[id].name in index && index[t[id].name] == id
  }

  /** The first k names contain the row's, and so its order is that name's last
      position among them. */
  function Moved(row: Row, names: seq<string>, k: nat): Row
    requires k <= |names|
  {
    if row.name in names[..k] then row.(order := Last(names[..k], row.name)) else row
  }

  /** Only names of its own row reach an index entry. */
  ghost predicate OwnName(t: Table, names: seq<string>, index: map<string, Id>, id: Id)
    requires id in t
  {
    forall n :: n in names && n in index && index[n] == id ==> n == t[id].name
  }

  /** An old row after k names: moved if it is indexed, otherwise as it was. */
  lemma {:induction false} PlaceOld(t: Table, owner: Id, names: seq<string>, index: map<string, Id>, base: Id, k: nat,
      id: Id)
    requires k <= |names| && id in t && id < base && OwnName(t, names, index, id)
    ensures var r := Place(t, owner, names, index, base, k);
      id in r && r[id] == if Indexed(t, index, id) then Moved(t[id], names, k) else t[id]
  {
    if k > 0 {
      PlaceOld(t, owner, names, index, base, k - 1, id);
      var name := names[k - 1];
      assert name in names;
      assert names[..k] == names[..k - 1] + [name];
    }
  }

  /** A key that no row had: it is used exactly if it is a position's whose name
      is not indexed. */
  lemma {:induction false} PlaceNew(t: Table, owner: Id, names: seq<string>, index: map<string, Id>, base: Id, k: nat,
      id: Id)
    requires k <= |names| && id !in t && forall n :: n in names && n in index ==> index[n] != id
    ensures var r := Place(t, owner, names, index, base, k);
      && (id in r <==> Created(names, index, base, k, id))
      && (id in r ==> r[id] == Row(owner, names[id - base], id - base))
  {
    if k > 0 {
      PlaceNew(t, owner, names, index, base, k - 1, id);
      assert names[k - 1] in names;
    }
  }

  /** Reused names belong to rows of this owner. */
  ghost predicate Reuses(t: Table, owner: Id, names: seq<string>, index: map<string, Id>) {
    forall n :: n in index && n in names ==> index[n] in t && t[index[n]].owner == owner && t[index[n]].name == n
  }

  /** What placing k names makes of one key. */
  ghost predicate PlacedRow(t: Table, r: Table, owner: Id, names: seq<string>, index: map<string, Id>, base: Id, k: nat,
      id: Id)
    requires k <= |names|
  {
    if id in t then
      id in r && r[id] == if Indexed(t, index, id) then Moved(t[id], names, k) else t[id]
    else
      && (id in r <==> Created(names, index, base, k, id))
      && (id in r ==> r[id] == Row(owner, names[id - base], id - base))
  }

  /** What placing k names does to every key, new or old. */
  lemma PlaceRows(t: Table, owner: Id, names: seq<string>, index: map<string, Id>, base: Id, k: nat)
    requires Below(t, base) && k <= |names| && Reuses(t, owner, names, index)
    ensures forall id: Id :: PlacedRow(t, Place(t, owner, names, index, base, k), owner, names, index, base, k, id)
  {
    forall id: Id ensures PlacedRow(t, Place(t, owner, names, index, base, k), owner, names, index, base, k, id) {
      if id in t {
        PlaceOld(t, owner, names, index, base, k, id);
      } else {
        PlaceNew(t, owner, names, index, base, k, id);
      }
    }
  }

  /** What the edit makes of one key: a dropped or unused one holds a row exactly
      if it was created, an indexed row moves, any other stays as it was. */
  ghost predicate EditedRow(t: Table, r: Table, owner: Id, names: seq<string>, index: map<string, Id>, base: Id,
      id: Id) {
    if id in t && id !in Dropped(t, owner, names) then
      id in r && r[id] == if t[id].owner == owner && Indexed(t, index, id) then Moved(t[id], names, |names|) else t[id]
    else
      && (id in r <==> Created(names, index, base, |names|, id))
      && (id in r ==> r[id] == Row(owner, names[id - base], id - base))
  }

  lemma EditKept(t: Table, owner: Id, names: seq<string>, index: map<string, Id>, base: Id, id: Id)
    requires Below(t, base) && IsIndex(t, owner, index) && id in t && id !in Dropped(t, owner, names)
    ensures EditedRow(t, Edit(t, owner, names, index, base), owner, names, index, base, id)
  {
    var kept := t - Dropped(t, owner, names);
    assert id in kept && kept[id] == t[id];
    PlaceOld(kept, owner, names, index, base, |names|, id);
  }

  lemma EditUnused(t: Table, owner: Id, names: seq<string>, index: map<string, Id>, base: Id, id: Id)
    requires Below(t, base) && IsIndex(t, owner, index) && (id !in t || id in Dropped(t, owner, names))
    ensures EditedRow(t, Edit(t, owner, names, index, base), owner, names, index, base, id)
  {
    PlaceNew(t - Dropped(t, owner, names), owner, names, index, base, |names|, id);
  }

  lemma EditRow(t: Table, owner: Id, names: seq<string>, index: map<string, Id>, base: Id, id: Id)
    requires Below(t, base) && IsIndex(t, owner, index)
    ensures EditedRow(t, Edit(t, owner, names, index, base), owner, names, index, base, id)
  {
    if id in t && id !in Dropped(t, owner, names) {
      EditKept(t, owner, names, index, base, id);
    } else {
      EditUnused(t, owner, names, index, base, id);
    }
  }

  /** A kept name's row ends up at the last position of that name. */
  lemma ReusedRow(t: Table, owner: Id, names: seq<string>, index: map<string, Id>, base: Id, n: string)
    requires Below(t, base) && IsIndex(t, owner, index) && n in names && n in index
    ensures var r := Edit(t, owner, names, index, base);
      index[n] in r && r[index[n]] == Row(owner, n, Last(names, n))
  {
    assert names[..|names|] == names;
    EditKept(t, owner, names, index, base, index[n]);
  }

  /** The whole edit, key by key, and where each kept name's row ends up. */
  lemma EditRows(t: Table, owner: Id, names: seq<string>, index: map<string, Id>, base: Id)
    requires Below(t, base) && IsIndex(t, owner, index)
    ensures var r := Edit(t, owner, names, index, base);
      && (forall id: Id :: EditedRow(t, r, owner, names, index, base, id))
      && (forall n :: n in names && n in index ==> index[n] in r && r[index[n]] == Row(owner, n, Last(names, n)))
  {
    var r := Edit(t, owner, names, index, base);
    forall id: Id ensures EditedRow(t, r, owner, names, index, base, id) {
      EditRow(t, owner, names, index, base, id);
    }
    forall n | n in names && n in index ensures index[n] in r && r[index[n]] == Row(owner, n, Last(names, n)) {
      ReusedRow(t, owner, names, index, base, n);
    }
  }

  // --------------------------------------------- delete-and-recreate agrees

  lemma RecreateRow(t: Table, owner: Id, names: seq<string>, base: Id, id: Id)
    requires Below(t, base)
    ensures var r := Recreate(t, owner, names, base);
      if id in t && t[id].owner != owner then id in r && r[id] == t[id]
      else (id in r <==> base <= id < base + |names|) && (id in r ==> r[id] == Row(owner, names[id - base], id - base))
  {
    if id in t && t[id].owner != owner {
      PlaceOld(Without(t, owner), owner, names, map[], base, |names|, id);
    } else {
      PlaceNew(Without(t, owner), owner, names, map[], base, |names|, id);
    }
  }

  /** The naive edit always shows exactly the requested names. */
  lemma RecreateExact(t: Table, owner: Id, names: seq<string>, base: Id)
    requires Below(t, base)
    ensures Exact(Recreate(t, owner, names, base), owner, names)
    ensures forall id :: id in t && t[id].owner != owner ==>
      id in Recreate(t, owner, names, base) && Recreate(t, owner, names, base)[id] == t[id]
    ensures forall id ::
      id in Recreate(t, owner, names, base) && Recreate(t, owner, names, base)[id].owner != owner ==>
        id in t && t[id].owner != owner
    ensures Below(Recreate(t, owner, names, base), base + |names|)
  {
    var r := Recreate(t, owner, names, base);
    forall id: Id
      ensures id in r ==> if id in t && t[id].owner != owner then r[id] == t[id]
        else base <= id < base + |names| && r[id] == Row(owner, names[id - base], id - base)
      ensures id in t && t[id].owner != owner ==> id in r
    {
      RecreateRow(t, owner, names, base, id);
    }
    forall i | 0 <= i < |names| ensures RowAt(r, owner, i) {
      RecreateRow(t, owner, names, base, base + i);
      assert r[base + i].order == i;
    }
  }

  /** A row that keeps its name but is not the one the index reuses. */
  ghost predicate Leftover(t: Table, owner: Id, names: seq<string>, index: map<string, Id>, id: Id) {
    id in t && t[id].owner == owner && t[id].name in names && t[id].name in index && index[t[id].name] != id
  }

  /** The condition under which the diff shows the requested list: the leftover
      rows already sit, one each, at exactly the repeated positions of their
      names that the reused row does not take. */
  ghost predicate CleanEdit(t: Table, owner: Id, names: seq<string>, index: map<string, Id>) {
    && (forall id :: Leftover(t, owner, names, index, id) ==>
          t[id].order < |names| && names[t[id].order] == t[id].name && t[id].order != Last(names, t[id].name))
    && (forall x, y | Leftover(t, owner, names, index, x) && Leftover(t, owner, names, index, y) ::
          t[x].order == t[y].order ==> x == y)
    && (forall i :: 0 <= i < |names| && names[i] in index && i != Last(names, names[i]) ==>
          LeftoverAt(t, owner, names, index, i))
  }

  ghost predicate LeftoverAt(t: Table, owner: Id, names: seq<string>, index: map<string, Id>, i: nat) {
    exists id :: Leftover(t, owner, names, index, id) && t[id].order == i
  }

  lemma LeftoverStays(t: Table, owner: Id, names: seq<string>, index: map<string, Id>, base: Id, id: Id)
    requires Below(t, base) && IsIndex(t, owner, index) && Leftover(t, owner, names, index, id)
    ensures id in Edit(t, owner, names, index, base) && Edit(t, owner, names, index, base)[id] == t[id]
  {
    EditKept(t, owner, names, index, base, id);
  }

  /** A row of the result is new, or reused, or a leftover; each kind by what sits
      at which position. */
  lemma RowKind(t: Table, owner: Id, names: seq<string>, index: map<string, Id>, base: Id, id: Id)
    requires Below(t, base) && IsIndex(t, owner, index)
    requires id in Edit(t, owner, names, index, base) && Edit(t, owner, names, index, base)[id].owner == owner
    ensures var row := Edit(t, owner, names, index, base)[id];
      && row.name in names
      && (row.name !in index ==> id == base + row.order && row.order < |names| && names[row.order] == row.name)
      && (row.name in index ==>
            if index[row.name] == id then row.order == Last(names, row.name)
            else Leftover(t, owner, names, index, id) && row == t[id])
  {
    EditRow(t, owner, names, index, base, id);
    assert names[..|names|] == names;
  }

  lemma OnlyCleanLeftover(t: Table, owner: Id, names: seq<string>, index: map<string, Id>, base: Id, id: Id)
    requires Below(t, base) && IsIndex(t, owner, index) && Leftover(t, owner, names, index, id)
    requires Exact(Edit(t, owner, names, index, base), owner, names)
    ensures t[id].order < |names| && names[t[id].order] == t[id].name && t[id].order != Last(names, t[id].name)
  {
    LeftoverStays(t, owner, names, index, base, id);
    ReusedRow(t, owner, names, index, base, t[id].name);
  }

  lemma OnlyCleanPosition(t: Table, owner: Id, names: seq<string>, index: map<string, Id>, base: Id, i: nat)
    requires Below(t, base) && IsIndex(t, owner, index)
    requires i < |names| && names[i] in index && i != Last(names, names[i])
    requires Exact(Edit(t, owner, names, index, base), owner, names)
    ensures LeftoverAt(t, owner, names, index, i)
  {
    var r := Edit(t, owner, names, index, base);
    assert RowAt(r, owner, i);
    var id :| id in r && r[id].owner == owner && r[id].order == i;
    RowKind(t, owner, names, index, base, id);
  }

  lemma EditExactOnlyIfClean(t: Table, owner: Id, names: seq<string>, index: map<string, Id>, base: Id)
    requires Below(t, base) && IsIndex(t, owner, index)
    requires Exact(Edit(t, owner, names, index, base), owner, names)
    ensures CleanEdit(t, owner, names, index)
  {
    var r := Edit(t, owner, names, index, base);
    forall id | Leftover(t, owner, names, index, id)
      ensures t[id].order < |names| && names[t[id].order] == t[id].name && t[id].order != Last(names, t[id].name)
    {
      OnlyCleanLeftover(t, owner, names, index, base, id);
    }
    forall x, y | Leftover(t, owner, names, index, x) && Leftover(t, owner, names, index, y)
      ensures t[x].order == t[y].order ==> x == y
    {
      LeftoverStays(t, owner, names, index, base, x);
      LeftoverStays(t, owner, names, index, base, y);
    }
    forall i | 0 <= i < |names| && names[i] in index && i != Last(names, names[i])
      ensures LeftoverAt(t, owner, names, index, i)
    {
      OnlyCleanPosition(t, owner, names, index, base, i);
    }
  }

  lemma CleanRow(t: Table, owner: Id, names: seq<string>, index: map<string, Id>, base: Id, id: Id)
    requires Below(t, base) && IsIndex(t, owner, index) && CleanEdit(t, owner, names, index)
    requires id in Edit(t, owner, names, index, base) && Edit(t, owner, names, index, base)[id].owner == owner
    ensures var row := Edit(t, owner, names, index, base)[id]; row.order < |names| && row.name == names[row.order]
  {
    RowKind(t, owner, names, index, base, id);
  }

  lemma CleanRowsApart(t: Table, owner: Id, names: seq<string>, index: map<string, Id>, base: Id, x: Id, y: Id)
    requires Below(t, base) && IsIndex(t, owner, index) && CleanEdit(t, owner, names, index)
    requires var r := Edit(t, owner, names, index, base);
      x in r && y in r && r[x].owner == owner && r[y].owner == owner && r[x].order == r[y].order
    ensures x == y
  {
    CleanRow(t, owner, names, index, base, x);
    CleanRow(t, owner, names, index, base, y);
    RowKind(t, owner, names, index, base, x);
    RowKind(t, owner, names, index, base, y);
  }

  lemma CleanPosition(t: Table, owner: Id, names: seq<string>, index: map<string, Id>, base: Id, i: nat)
    requires Below(t, base) && IsIndex(t, owner, index) && CleanEdit(t, owner, names, index) && i < |names|
    ensures RowAt(Edit(t, owner, names, index, base), owner, i)
  {
    var n := names[i];
    if n !in index {
      EditRow(t, owner, names, index, base, base + i);
    } else if i == Last(names, n) {
      ReusedRow(t, owner, names, index, base, n);
    } else {
      assert LeftoverAt(t, owner, names, index, i);
      var id :| Leftover(t, owner, names, index, id) && t[id].order == i;
      LeftoverStays(t, owner, names, index, base, id);
    }
  }

  lemma CleanEditExact(t: Table, owner: Id, names: seq<string>, index: map<string, Id>, base: Id)
    requires Below(t, base) && IsIndex(t, owner, index) && CleanEdit(t, owner, names, index)
    ensures Exact(Edit(t, owner, names, index, base), owner, names)
  {
    var r := Edit(t, owner, names, index, base);
    forall id | id in r && r[id].owner == owner ensures r[id].order < |names| && r[id].name == names[r[id].order] {
      CleanRow(t, owner, names, index, base, id);
    }
    forall x, y | x in r && y in r && r[x].owner == owner && r[y].owner == owner && r[x].order == r[y].order
      ensures x == y
    {
      CleanRowsApart(t, owner, names, index, base, x, y);
    }
    forall i | 0 <= i < |names| ensures RowAt(r, owner, i) {
      CleanPosition(t, owner, names, index, base, i);
    }
  }

  /** The diff shows what delete-and-recreate shows, for every request, every
      table and every scan of it, if and only if the edit is clean. */
  lemma EditRefinesRecreate(t: Table, owner: Id, names: seq<string>, index: map<string, Id>, base: Id)
    requires Below(t, base) && IsIndex(t, owner, index)
    ensures Exact(Edit(t, owner, names, index, base), owner, names) <==> CleanEdit(t, owner, names, index)
    ensures Exact(Recreate(t, owner, names, base), owner, names)
  {
    RecreateExact(t, owner, names, base);
    if CleanEdit(t, owner, names, index) {
      CleanEditExact(t, owner, names, index, base);
    } else if Exact(Edit(t, owner, names, index, base), owner, names) {
      EditExactOnlyIfClean(t, owner, names, index, base);
    }
  }

  /** For a request of distinct names the condition is simply that no kept name
      has a second row. */
  lemma DistinctRequestClean(t: Table, owner: Id, names: seq<string>, index: map<string, Id>)
    requires IsIndex(t, owner, index) && Distinct(names)
    ensures CleanEdit(t, owner, names, index) <==> forall id :: !Leftover(t, owner, names, index, id)
  {
  }

  ghost predicate UniqueNames(t: Table, owner: Id) {
    forall x, y :: x in t && y in t && t[x].owner == owner && t[y].owner == owner && t[x].name == t[y].name ==> x == y
  }

  lemma ExactUniqueNames(t: Table, owner: Id, names: seq<string>)
    requires Distinct(names) && Exact(t, owner, names)
    ensures UniqueNames(t, owner)
  {
  }

  /** Distinct requests on a pipeline of distinct names: the result is exact and
      again has distinct names, and a kept name keeps its row. */
  lemma DistinctEdit(t: Table, owner: Id, names: seq<string>, index: map<string, Id>, base: Id)
    requires Below(t, base) && IsIndex(t, owner, index)
    requires Distinct(names) && UniqueNames(t, owner)
    ensures var r := Edit(t, owner, names, index, base);
      && Exact(r, owner, names) && UniqueNames(r, owner)
      && (forall id :: id in t && t[id].owner == owner && t[id].name in names ==>
        id in r && r[id].owner == owner && r[id].name == t[id].name)
  {
    var r := Edit(t, owner, names, index, base);
    DistinctRequestClean(t, owner, names, index);
    CleanEditExact(t, owner, names, index, base);
    forall id | id in t && t[id].owner == owner && t[id].name in names
      ensures id in r && r[id].owner == owner && r[id].name == t[id].name
    {
      EditKept(t, owner, names, index, base, id);
    }
    ExactUniqueNames(r, owner, names);
  }

  /** Repeating the request changes nothing, whichever rows the second scan indexes. */
  lemma EditIdempotent(t: Table, owner: Id, names: seq<string>, index: map<string, Id>, base: Id,
      index': map<string, Id>, base': Id)
    requires Below(t, base) && IsIndex(t, owner, index)
    requires Distinct(names) && UniqueNames(t, owner)
    requires IsIndex(Edit(t, owner, names, index, base), owner, index')
    ensures Dropped(Edit(t, owner, names, index, base), owner, names) == {}
    ensures Edit(Edit(t, owner, names, index, base), owner, names, index', base') == Edit(t, owner, names, index, base)
  {
    var r := Edit(t, owner, names, index, base);
    DistinctEdit(t, owner, names, index, base);
    forall i | 0 <= i < |names| ensures names[i] in index' && r[index'[names[i]]].order == i {
      assert RowAt(r, owner, i);
    }
    assert r - Dropped(r, owner, names) == r;
    PlaceSame(r, owner, names, index', base', |names|);
  }

  lemma {:induction false} PlaceSame(t: Table, owner: Id, names: seq<string>, index: map<string, Id>, base: Id, k: nat)
    requires k <= |names|
    requires forall i :: 0 <= i < k ==> names[i] in index && index[names[i]] in t && t[index[names[i]]].order == i
    ensures Place(t, owner, names, index, base, k) == t
  {
    if k > 0 {
      PlaceSame(t, owner, names, index, base, k - 1);
    }
  }

  /** An edit keeps the rows of other owners, and every row that is not dropped
      keeps its identity; a non-empty request leaves a non-empty pipeline. All
      of it without any assumption on names. */
  lemma EditSafe(t: Table, owner: Id, names: seq<string>, index: map<string, Id>, base: Id)
    requires Below(t, base) && IsIndex(t, owner, index) && |names| > 0
    ensures var r := Edit(t, owner, names, index, base);
      && (forall id :: id in t && id !in Dropped(t, owner, names) ==>
        id in r && r[id].owner == t[id].owner && r[id].name == t[id].name)
      && (forall id :: id in t && t[id].owner != owner ==> id in r && r[id] == t[id])
      && (forall id :: id in r && r[id].owner != owner ==> id in t && t[id] == r[id])
      && HasRows(r, owner)
      && Below(r, base + |names|)
  {
    var r := Edit(t, owner, names, index, base);
    forall id: Id
      ensures id in t && id !in Dropped(t, owner, names) ==>
        id in r && r[id].owner == t[id].owner && r[id].name == t[id].name && (t[id].owner != owner ==> r[id] == t[id])
      ensures id in r ==> id < base + |names|
      ensures id in r && r[id].owner != owner ==> id in t && t[id] == r[id]
    {
      EditRow(t, owner, names, index, base, id);
    }
    var n := names[0];
    if n in index {
      ReusedRow(t, owner, names, index, base, n);
    } else {
      EditRow(t, owner, names, index, base, base);
    }
  }

  /** Why CleanEdit cannot be dropped: asking for ["A", "A"] where one row "A"
      exists leaves a single row, at order 1. */
  lemma RepeatedNameCollapses()
    ensures var t: Table := map[0 := Row(7, "A", 0)];
      var index := map["A" := 0];
      && IsIndex(t, 7, index) && !CleanEdit(t, 7, ["A", "A"], index)
      && Edit(t, 7, ["A", "A"], index, 1) == map[0 := Row(7, "A", 1)]
  {
    var t: Table := map[0 := Row(7, "A", 0)];
    var index := map["A" := 0];
    var names := ["A", "A"];
    assert Dropped(t, 7, names) == {};
    assert Place(t, 7, names, index, 1, 1) == t;
    assert Place(t, 7, names, index, 1, 2) == map[0 := Row(7, "A", 1)];
    assert t - Dropped(t, 7, names) == t;
    LastIs(names, 1);
    assert !LeftoverAt(t, 7, names, index, 0);
  }

  // ----------------------------------------------------- the last stage

  /** Array.findIndex over the listed ids; -1 when absent. */
  function FindIndex(ids: seq<Id>, id: Id): (i: int)
    ensures -1 <= i < |ids|
    ensures i >= 0 ==> ids[i] == id && forall j :: 0 <= j < i ==> ids[j] != id
    ensures i == -1 ==> id !in ids
  {
    if ids == [] then -1
    else if ids[0] == id then 0
    else var r := FindIndex(ids[1..], id); if r < 0 then -1 else r + 1
  }

  /** The application page's rule for offering no further PASS. */
  predicate IsFinalStage(ids: seq<Id>, id: Id) {
    var i := FindIndex(ids, id);
    i >= 0 && i == |ids| - 1
  }

  ghost predicate Top(t: Table, owner: Id, id: Id) {
    id in t && t[id].owner == owner && forall y :: y in t && t[y].owner == owner ==> t[y].order <= t[id].order
  }

  /** Every row below another has a row exactly one above it, and the highest
      order belongs to one row only. */
  ghost predicate Stepwise(t: Table, owner: Id) {
    && (forall x, y :: x in t && y in t && t[x].owner == owner && t[y].owner == owner && t[x].order < t[y].order ==>
          RowAt(t, owner, t[x].order + 1))
    && (forall x, y :: Top(t, owner, x) && Top(t, owner, y) ==> x == y)
  }

  ghost predicate RuleAgrees(t: Table, owner: Id, ids: seq<Id>) {
    forall id :: id in t && t[id].owner == owner ==> (IsFinalStage(ids, id) <==> !RowAt(t, owner, t[id].order + 1))
  }

  lemma LastIsTop(t: Table, owner: Id, ids: seq<Id>, id: Id)
    requires IsListing(t, owner, ids) && id in t && t[id].owner == owner
    ensures ids != [] && ids[|ids| - 1] in t && Top(t, owner, ids[|ids| - 1])
    ensures IsFinalStage(ids, id) <==> ids[|ids| - 1] == id
  {
  }

  lemma StepwiseAgrees(t: Table, owner: Id, ids: seq<Id>)
    requires IsListing(t, owner, ids) && Stepwise(t, owner)
    ensures RuleAgrees(t, owner, ids)
  {
    forall id | id in t && t[id].owner == owner
      ensures IsFinalStage(ids, id) <==> !RowAt(t, owner, t[id].order + 1)
    {
      LastIsTop(t, owner, ids, id);
      var last := ids[|ids| - 1];
      if t[id].order == t[last].order {
        assert Top(t, owner, id);
      }
    }
  }

  lemma AgreeingIsStepwise(t: Table, owner: Id, ids: seq<Id>)
    requires IsListing(t, owner, ids) && RuleAgrees(t, owner, ids)
    ensures Stepwise(t, owner)
  {
    forall x, y | x in t && y in t && t[x].owner == owner && t[y].owner == owner && t[x].order < t[y].order
      ensures RowAt(t, owner, t[x].order + 1)
    {
      LastIsTop(t, owner, ids, x);
    }
    forall x, y | Top(t, owner, x) && Top(t, owner, y) ensures x == y {
      LastIsTop(t, owner, ids, x);
      LastIsTop(t, owner, ids, y);
      assert !RowAt(t, owner, t[x].order + 1) && !RowAt(t, owner, t[y].order + 1);
    }
  }

  /** The page calls a stage final exactly when no next stage exists, for every
      stage of the pipeline, if and only if the orders are stepwise. */
  lemma FinalStageRule(t: Table, owner: Id, ids: seq<Id>)
    requires IsListing(t, owner, ids)
    ensures RuleAgrees(t, owner, ids) <==> Stepwise(t, owner)
  {
    if Stepwise(t, owner) {
      StepwiseAgrees(t, owner, ids);
    } else if RuleAgrees(t, owner, ids) {
      AgreeingIsStepwise(t, owner, ids);
    }
  }

  /** Orders numbered 0..n-1 are stepwise, and then the top order is n-1. */
  lemma ExactStepwise(t: Table, owner: Id, names: seq<string>)
    requires Exact(t, owner, names)
    ensures Stepwise(t, owner)
    ensures forall id :: id in t && t[id].owner == owner ==>
      (RowAt(t, owner, t[id].order + 1) <==> t[id].order < |names| - 1)
  {
  }

  /** A request with a repeated kept name can leave a hole the page does not see:
      rows at orders 0 and 2, so the first stage is not final for the page and yet
      has no next stage. */
  lemma GapStrandsAnApplication(owner: Id, x: Id, y: Id, base: Id)
    requires x != y && x < base && y < base
    ensures var t: Table := map[x := Row(owner, "A", 0), y := Row(owner, "B", 1)];
      var index := map["A" := x, "B" := y];
      var r := Edit(t, owner, ["A", "B", "B"], index, base);
      && IsIndex(t, owner, index) && Dropped(t, owner, ["A", "B", "B"]) == {}
      && r == map[x := Row(owner, "A", 0), y := Row(owner, "B", 2)]
      && IsListing(r, owner, [x, y]) && !IsFinalStage([x, y], x) && !RowAt(r, owner, 1)
  {
    var t: Table := map[x := Row(owner, "A", 0), y := Row(owner, "B", 1)];
    var index := map["A" := x, "B" := y];
    var names := ["A", "B", "B"];
    assert t - Dropped(t, owner, names) == t;
    assert Place(t, owner, names, index, base, 1) == t;
    assert Place(t, owner, names, index, base, 2) == t;
    assert Edit(t, owner, names, index, base) == map[x := Row(owner, "A", 0), y := Row(owner, "B", 2)];
    assert FindIndex([x, y], x) == 0;
  }
}

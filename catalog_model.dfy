/**
 * The three catalog models `MachineType`, `MachineSubtype` and `Machine`: the
 * same five static operations over a table `(id INTEGER PRIMARY KEY
 * AUTOINCREMENT, name TEXT NOT NULL)`. One `NameTable` object is one such table.
 */
module CatalogModel {
  import opened Values
  import opened Seqs

  /** A row as `SELECT *` returns it (the `created_at` column is not modelled). */
  datatype NameRow = NameRow(id: int, name: Cell)

  /** The rows of `ids`, in order. */
  function RowsOf(names: map<int, Cell>, ids: seq<int>): (r: seq<NameRow>)
    requires forall i :: 0 <= i < |ids| ==> ids[i] in names
    ensures |r| == |ids| && forall i :: 0 <= i < |r| ==> r[i] == NameRow(ids[i], names[ids[i]])
  {
    if ids == [] then [] else [NameRow(ids[0], names[ids[0]])] + RowsOf(names, ids[1..])
  }

  lemma ScannedNamesPresent(names: map<int, Cell>, nextId: int)
    ensures var ids := Ascending(names.Keys, 1, nextId); forall i :: 0 <= i < |ids| ==> ids[i] in names
  {
    var ids := Ascending(names.Keys, 1, nextId);
    forall i | 0 <= i < |ids| ensures ids[i] in names {
      assert ids[i] in ids;
    }
  }

  class NameTable {
    /** The rows, by id. */
    var names: map<int, Cell>
    /** The AUTOINCREMENT counter: the id the next insert receives. */
    var nextId: int

    /** Ids are positive and below the counter, so a new id is never one in use or used before. */
    ghost predicate Valid()
      reads this
    {
      1 <= nextId && forall id :: id in names ==> 1 <= id < nextId
    }

    constructor()
      ensures Valid()
      ensures names == map[] && nextId == 1
    {
      names := map[];
      nextId := 1;
    }

    /** `getAll`: `SELECT * FROM t`, which scans the table in rowid order. */
    function GetAll(): (r: seq<NameRow>)
      requires Valid()
      reads this
      ensures forall row :: row in r <==> row.id in names && names[row.id] == row.name
      ensures forall i, j :: 0 <= i < j < |r| ==> r[i].id < r[j].id
    {
      var ids := Ascending(names.Keys, 1, nextId);
      ScannedNamesPresent(names, nextId);
      var r := RowsOf(names, ids);
      forall row: NameRow | row.id in names && names[row.id] == row.name ensures row in r {
        var k :| 0 <= k < |ids| && ids[k] == row.id;
        assert r[k] == row;
      }
      r
    }

    /** `getById`: the row with that id, or `undefined` (`None`). */
    function GetById(id: int): (r: Option<NameRow>)
      reads this
      ensures r.Some? <==> id in names
      ensures r.Some? ==> r.value.id == id && r.value.name == names[id]
    {
      if id in names then Some(NameRow(id, names[id])) else None
    }

    /**
     * `create`: inserts a row and reports `lastID`, a fresh id. A NULL name
     * violates NOT NULL, the promise rejects (`None`) and nothing is inserted.
     */
    method Create(name: Cell) returns (id: Option<int>)
      requires Valid()
      modifies this
      ensures Valid()
      ensures name == SqlNull ==> id == None && names == old(names) && nextId == old(nextId)
      ensures name != SqlNull ==> id == Some(old(nextId)) && id.value !in old(names)
      ensures name != SqlNull ==> names == old(names)[id.value := name] && nextId == old(nextId) + 1
    {
      if name == SqlNull {
        return None;
      }
      id := Some(nextId);
      names := names[nextId := name];
      nextId := nextId + 1;
    }

    /**
     * `update`: renames the row with that id and reports `changes`, 1 or 0.
     * Setting a present row's name to NULL violates NOT NULL (`None`).
     */
    method Update(id: int, name: Cell) returns (changes: Option<nat>)
      requires Valid()
      modifies this
      ensures Valid() && nextId == old(nextId)
      ensures id in old(names) && name != SqlNull ==> changes == Some(1) && names == old(names)[id := name]
      ensures id in old(names) && name == SqlNull ==> changes == None && names == old(names)
      ensures id !in old(names) ==> changes == Some(0) && names == old(names)
    {
      if id !in names {
        return Some(0);
      }
      if name == SqlNull {
        return None;
      }
      names := names[id := name];
      changes := Some(1);
    }

    /** `delete`: removes the row with that id and reports `changes`, 1 or 0. */
    method Delete(id: int) returns (changes: nat)
      requires Valid()
      modifies this
      ensures Valid() && nextId == old(nextId)
      ensures id in old(names) ==> changes == 1 && names == old(names) - {id}
      ensures id !in old(names) ==> changes == 0 && names == old(names)
    {
      if id in names {
        names := names - {id};
        changes := 1;
      } else {
        changes := 0;
      }
    }
  }

  /** `getById` after `create` finds the created row; an id never handed out is not found. */
  method CreateThenGet(t: NameTable, name: Cell, other: int)
      returns (id: int, found: Option<NameRow>, missing: Option<NameRow>)
    requires t.Valid() && name != SqlNull
    requires other >= t.nextId + 1 || other <= 0
    modifies t
    ensures t.Valid()
    ensures found == Some(NameRow(id, name))
    ensures missing == None
  {
    var r := t.Create(name);
    id := r.value;
    found := t.GetById(id);
    missing := t.GetById(other);
  }

  /** Names are not unique: two creates with one name both succeed, with distinct ids. */
  method CreateDuplicateName(t: NameTable, name: Cell) returns (first: int, second: int)
    requires t.Valid() && name != SqlNull
    modifies t
    ensures t.Valid()
    ensures first != second && first !in old(t.names) && second !in old(t.names)
    ensures t.names == old(t.names)[first := name][second := name]
  {
    var a := t.Create(name);
    var b := t.Create(name);
    first, second := a.value, b.value;
  }
}

/** The owner's registry object (src/projects/registry.ts). `Valid` is what every sequence of
    operations keeps, and each method states what its caller may rely on. */
module ProjectRegistries {
  import opened Wrappers
  import opened Names
  import opened Registry
  import opened RegistryRuns

  class ProjectRegistry {
    var rows: Rows

    /** All that the registry keeps: uniqueness, the bound and valid names. */
    ghost predicate Valid()
      reads this
    {
      Inv(rows)
    }

    constructor ()
      ensures rows == map[] && Valid()
    {
      rows := map[];
      new;
      StartIsUnique();
    }

    /** Refused, nothing changes; accepted, exactly one active project stands for the
        directory. */
    method AddProject(d: Directory, display: Option<Name>, level: Option<Level>, samePath: bool, missing: bool, newId: Id)
      returns (result: Result<Change>)
      requires Valid()
      modifies this
      ensures (rows, result) == Add(old(rows), d, display, level, samePath, missing, newId)
      ensures Valid() && Continues(old(rows), rows)
      ensures Outcome(old(rows), (rows, result), d, if display.Some? then Some(Trim(display.value)) else None, level, samePath)
    {
      ghost var e := AddEvent(d, display, level, samePath, missing, newId);
      StepKeepsInv(rows, e);
      StepContinues(rows, e);
      AddOutcome(rows, d, display, level, samePath, missing, newId);
      var name := Trim(Or(display, d.base));
      if !IsDisplayName(name) {
        return Failure(INVALID_INPUT);
      }
      var given := if display.Some? then Some(name) else None;
      var byRoot := FindRoot(d);
      if byRoot.Some? {
        result := ReaddRow(byRoot.value, d, given, level);
        return;
      }
      var byInode := FindInode(d);
      if byInode.Some? {
        result := RelocateRow(byInode.value, d, given, level, samePath, missing);
        return;
      }
      result := InsertRow(d, name, level, newId);
    }

    method FindRoot(d: Directory) returns (found: Option<Id>)
      requires Valid()
      ensures found == ByRoot(rows, d)
    {
      if id :| id in rows && !rows[id].removed && rows[id].root == d.root {
        assert AtRoot(rows, d, id);
        return Some(id);
      }
      found := None;
    }

    method FindInode(d: Directory) returns (found: Option<Id>)
      requires Valid()
      ensures found == ByInode(rows, d)
    {
      if id :| id in rows && !rows[id].removed && rows[id].dev == d.dev && rows[id].ino == d.ino {
        assert SameInode(rows, d, id);
        return Some(id);
      }
      found := None;
    }

    method InsertRow(d: Directory, name: Name, level: Option<Level>, newId: Id) returns (result: Result<Change>)
      modifies this
      ensures (rows, result) == Insert(old(rows), d, name, level, newId)
    {
      if |Active(rows)| >= MAX_PROJECTS {
        return Failure(RESOURCE_LIMIT);
      }
      if NameTaken(rows, name, None) {
        return Failure(CONFLICT);
      }
      if newId in rows {
        return Failure(INTERNAL_ERROR);
      }
      rows := rows[newId := Project(d.root, d.dev, d.ino, d.birth, name, Or(level, Full), false)];
      result := Success(Added(newId));
    }

    method ReaddRow(id: Id, d: Directory, display: Option<Name>, level: Option<Level>) returns (result: Result<Change>)
      requires id in rows
      modifies this
      ensures (rows, result) == Readd(old(rows), id, d, display, level)
    {
      var current := rows[id];
      if current.dev != d.dev || current.ino != d.ino || current.birth != d.birth {
        return Failure(CONFLICT);
      }
      var renaming := display.Some? && current.name != display.value;
      var relevelling := level.Some? && current.level != level.value;
      if renaming && NameTaken(rows, display.value, Some(id)) {
        return Failure(CONFLICT);
      }
      if !renaming && !relevelling {
        return Success(Unchanged(id));
      }
      rows := rows[id := current.(name := if renaming then display.value else current.name,
                                  level := if relevelling then level.value else current.level)];
      result := Success(Updated(id));
    }

    method RelocateRow(id: Id, d: Directory, display: Option<Name>, level: Option<Level>, samePath: bool, missing: bool)
      returns (result: Result<Change>)
      requires id in rows
      modifies this
      ensures (rows, result) == Relocate(old(rows), id, d, display, level, samePath, missing)
    {
      var current := rows[id];
      if current.birth != d.birth {
        return Failure(CONFLICT);
      }
      if samePath {
        return Success(Unchanged(id));
      }
      if !missing {
        return Failure(CONFLICT);
      }
      if display.Some? && current.name != display.value && NameTaken(rows, display.value, Some(id)) {
        return Failure(CONFLICT);
      }
      rows := rows[id := current.(root := d.root, name := Or(display, current.name), level := Or(level, current.level), birth := d.birth)];
      result := Success(Relocated(id));
    }

    /** Only the level of an active project changes, and of no other. */
    method SetAccessLevel(id: Id, level: Level) returns (result: Result<()>)
      requires Valid()
      modifies this
      ensures (rows, result) == SetLevel(old(rows), id, level)
      ensures Valid() && Active(rows) == Active(old(rows)) && Continues(old(rows), rows)
      ensures result.Success? ==> IsActive(rows, id) && rows[id].level == level
    {
      StepKeepsInv(rows, LevelEvent(id, level));
      StepContinues(rows, LevelEvent(id, level));
      if id !in rows || rows[id].removed {
        return Failure(NOT_FOUND);
      }
      rows := rows[id := rows[id].(level := level)];
      result := Success(());
    }

    /** An accepted removal frees the root, the inode and the name of the project. */
    method RemoveProject(id: Id, busy: bool) returns (result: Result<()>)
      requires Valid()
      modifies this
      ensures (rows, result) == Remove(old(rows), id, busy)
      ensures Valid() && Continues(old(rows), rows)
      ensures result.Success? ==> !busy && IsActive(old(rows), id)
      ensures result.Success? ==> Active(rows) == Active(old(rows)) - {id} && !NameTaken(rows, old(rows)[id].name, None)
    {
      StepKeepsInv(rows, RemoveEvent(id, busy));
      StepContinues(rows, RemoveEvent(id, busy));
      if id !in rows || rows[id].removed {
        return Failure(NOT_FOUND);
      }
      if busy {
        return Failure(CONFLICT);
      }
      rows := rows[id := rows[id].(removed := true)];
      result := Success(());
    }
  }
}

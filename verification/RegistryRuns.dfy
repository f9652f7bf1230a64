/** What holds of the registry after every sequence of operations. */
module RegistryRuns {
  import opened Wrappers
  import opened Names
  import opened Registry

  datatype Event =
    | AddEvent(d: Directory, display: Option<Name>, level: Option<Level>, samePath: bool, missing: bool, newId: Id)
    | LevelEvent(id: Id, newLevel: Level)
    | RemoveEvent(id: Id, busy: bool)

  ghost function Step(rows: Rows, e: Event): Rows {
    match e
    case AddEvent(d, display, level, samePath, missing, newId) => Add(rows, d, display, level, samePath, missing, newId).0
    case LevelEvent(id, level) => SetLevel(rows, id, level).0
    case RemoveEvent(id, busy) => Remove(rows, id, busy).0
  }

  ghost function Run(rows: Rows, es: seq<Event>): Rows
    decreases |es|
  {
    if es == [] then rows else Run(Step(rows, es[0]), es[1..])
  }

  // ----------------------------------------------------------- updating one row

  predicate FreeName(rows: Rows, name: Name, id: Id) {
    forall other :: other in rows && !rows[other].removed && other != id ==> SqlLower(rows[other].name) != SqlLower(name)
  }

  lemma NotTakenIsFree(rows: Rows, name: Name, id: Id)
    ensures !NameTaken(rows, name, Some(id)) ==> FreeName(rows, name, id)
    ensures !NameTaken(rows, name, None) ==> FreeName(rows, name, id)
  {
  }

  /** Writing one active row keeps the names unique if its name is free. */
  lemma UpdateKeepsNames(rows: Rows, id: Id, p: Project)
    requires UniqueNames(rows) && WellNamed(rows)
    requires IsDisplayName(p.name) && IsTrimmed(p.name)
    requires FreeName(rows, p.name, id) || p.removed || (IsActive(rows, id) && p.name == rows[id].name)
    ensures UniqueNames(rows[id := p]) && WellNamed(rows[id := p])
  {
  }

  lemma UpdateKeepsPlaces(rows: Rows, id: Id, p: Project)
    requires UniqueRoots(rows) && UniqueInodes(rows)
    requires p.removed || (
        && (forall other :: IsActive(rows, other) && other != id ==> rows[other].root != p.root)
        && (forall other :: IsActive(rows, other) && other != id ==> rows[other].dev != p.dev || rows[other].ino != p.ino))
    ensures UniqueRoots(rows[id := p]) && UniqueInodes(rows[id := p])
  {
  }

  lemma UpdateActive(rows: Rows, id: Id, p: Project)
    ensures Active(rows[id := p]) == if p.removed then Active(rows) - {id} else Active(rows) + {id}
  {
  }

  lemma ReaddKeepsInv(rows: Rows, id: Id, d: Directory, display: Option<Name>, level: Option<Level>)
    requires Inv(rows) && AtRoot(rows, d, id)
    requires display.Some? ==> IsDisplayName(display.value) && IsTrimmed(display.value)
    ensures Inv(Readd(rows, id, d, display, level).0)
  {
    var p := rows[id].(name := Or(display, rows[id].name), level := Or(level, rows[id].level));
    if Readd(rows, id, d, display, level).0 != rows {
      NotTakenIsFree(rows, p.name, id);
      UpdateKeepsNames(rows, id, p);
      assert IsActive(rows, id);
      UpdateKeepsPlaces(rows, id, p);
      UpdateActive(rows, id, p);
      assert Active(rows) + {id} == Active(rows);
    }
  }

  lemma RelocateKeepsInv(rows: Rows, id: Id, d: Directory, display: Option<Name>, level: Option<Level>, samePath: bool, missing: bool)
    requires Inv(rows) && SameInode(rows, d, id) && forall other :: !AtRoot(rows, d, other)
    requires display.Some? ==> IsDisplayName(display.value) && IsTrimmed(display.value)
    ensures Inv(Relocate(rows, id, d, display, level, samePath, missing).0)
  {
    var p := rows[id].(root := d.root, name := Or(display, rows[id].name), level := Or(level, rows[id].level), birth := d.birth);
    if Relocate(rows, id, d, display, level, samePath, missing).0 != rows {
      NotTakenIsFree(rows, p.name, id);
      UpdateKeepsNames(rows, id, p);
      assert IsActive(rows, id);
      forall other | IsActive(rows, other) && other != id ensures rows[other].root != p.root {
        assert !AtRoot(rows, d, other);
      }
      UpdateKeepsPlaces(rows, id, p);
      UpdateActive(rows, id, p);
      assert Active(rows) + {id} == Active(rows);
    }
  }

  lemma InsertKeepsInv(rows: Rows, d: Directory, name: Name, level: Option<Level>, newId: Id)
    requires Inv(rows) && IsDisplayName(name) && IsTrimmed(name)
    requires (forall other :: !AtRoot(rows, d, other)) && (forall other :: !SameInode(rows, d, other))
    ensures Inv(Insert(rows, d, name, level, newId).0)
  {
    var p := Project(d.root, d.dev, d.ino, d.birth, name, Or(level, Full), false);
    if Insert(rows, d, name, level, newId).0 != rows {
      NotTakenIsFree(rows, name, newId);
      UpdateKeepsNames(rows, newId, p);
      forall other | IsActive(rows, other) ensures rows[other].root != p.root && (rows[other].dev != p.dev || rows[other].ino != p.ino) {
        assert !AtRoot(rows, d, other) && !SameInode(rows, d, other);
      }
      UpdateKeepsPlaces(rows, newId, p);
      UpdateActive(rows, newId, p);
    }
  }

  lemma AddKeepsInv(rows: Rows, e: Event)
    requires Inv(rows) && e.AddEvent?
    ensures Inv(Step(rows, e))
  {
    var name := Trim(Or(e.display, e.d.base));
    var given := if e.display.Some? then Some(name) else None;
    if IsDisplayName(name) {
      var root, inode := ByRoot(rows, e.d), ByInode(rows, e.d);
      if root.Some? {
        ReaddKeepsInv(rows, root.value, e.d, given, e.level);
      } else if inode.Some? {
        RelocateKeepsInv(rows, inode.value, e.d, given, e.level, e.samePath, e.missing);
      } else {
        InsertKeepsInv(rows, e.d, name, e.level, e.newId);
      }
    }
  }

  lemma StepKeepsInv(rows: Rows, e: Event)
    requires Inv(rows)
    ensures Inv(Step(rows, e))
  {
    if e.AddEvent? {
      AddKeepsInv(rows, e);
    } else if IsActive(rows, e.id) {
      var p := if e.LevelEvent? then rows[e.id].(level := e.newLevel) else rows[e.id].(removed := true);
      UpdateKeepsNames(rows, e.id, p);
      UpdateKeepsPlaces(rows, e.id, p);
      UpdateActive(rows, e.id, p);
      assert Active(rows) == Active(rows) - {e.id} + {e.id};
    }
  }

  /** Active projects stay unique by root, by file identity and by case-folded name, there
      are never more than 1000, and every stored name is valid. */
  lemma {:induction false} RunKeepsInv(rows: Rows, es: seq<Event>)
    requires Inv(rows)
    ensures Inv(Run(rows, es))
    decreases |es|
  {
    if es != [] {
      StepKeepsInv(rows, es[0]);
      RunKeepsInv(Step(rows, es[0]), es[1..]);
    }
  }

  lemma StartIsUnique()
    ensures Inv(map[])
  {
    assert Active(map[]) == {};
  }

  /** From an empty registry, after every sequence of operations. */
  lemma ActiveProjectsAreUnique(es: seq<Event>, a: Id, b: Id)
    requires var rows := Run(map[], es); IsActive(rows, a) && IsActive(rows, b) && a != b
    ensures var rows := Run(map[], es);
      && rows[a].root != rows[b].root
      && (rows[a].dev, rows[a].ino) != (rows[b].dev, rows[b].ino)
      && SqlLower(rows[a].name) != SqlLower(rows[b].name)
      && |Active(rows)| <= MAX_PROJECTS
  {
    StartIsUnique();
    RunKeepsInv(map[], es);
  }

  // ------------------------------------------------------------- identity over time

  /** No row disappears or changes its file identity, and a removed row is frozen. */
  predicate Continues(rows: Rows, next: Rows) {
    forall id :: id in rows ==>
      && id in next && next[id].dev == rows[id].dev && next[id].ino == rows[id].ino && next[id].birth == rows[id].birth
      && (rows[id].removed ==> next[id] == rows[id])
  }

  /** The row `id` now stands for this directory, under the given name and level or those it
      had before; every other row is as it was. */
  predicate Registers(rows: Rows, next: Rows, id: Id, d: Directory, given: Option<Name>, level: Option<Level>) {
    && next.Keys == rows.Keys + {id} && IsActive(next, id)
    && (next[id].dev, next[id].ino, next[id].birth) == (d.dev, d.ino, d.birth) && next[id].root == d.root
    && next[id].name == Or(given, if id in rows then rows[id].name else Trim(d.base))
    && next[id].level == Or(level, if id in rows then rows[id].level else Full)
    && (id in rows ==> next[id] == rows[id].(root := next[id].root, name := next[id].name, level := next[id].level))
    && (forall other :: other in rows && other != id ==> other in next && next[other] == rows[other])
  }

  /** The only accepted call that does not register the spelling of the path it was given:
      the root differs in case alone, and nothing changes. */
  predicate Outcome(rows: Rows, r: (Rows, Result<Change>), d: Directory, given: Option<Name>, level: Option<Level>, samePath: bool) {
    if r.1.Failure? then r.0 == rows
    else if samePath && r.1.value.Unchanged? then r.0 == rows && SameInode(rows, d, r.1.value.id)
    else
      && Registers(rows, r.0, r.1.value.id, d, given, level)
      && (r.1.value.Unchanged? <==> r.0 == rows)
      && (r.1.value.Added? <==> r.1.value.id !in rows)
      && (r.1.value.Relocated? <==> r.1.value.id in rows && rows[r.1.value.id].root != d.root)
  }

  lemma ReaddOutcome(rows: Rows, id: Id, d: Directory, given: Option<Name>, level: Option<Level>, samePath: bool)
    requires AtRoot(rows, d, id)
    ensures Outcome(rows, Readd(rows, id, d, given, level), d, given, level, samePath)
  {
    var (next, result) := Readd(rows, id, d, given, level);
    if result.Success? {
      assert next.Keys == rows.Keys + {id};
    }
  }

  lemma RelocateOutcome(rows: Rows, id: Id, d: Directory, given: Option<Name>, level: Option<Level>, samePath: bool, missing: bool)
    requires SameInode(rows, d, id) && !AtRoot(rows, d, id)
    ensures Outcome(rows, Relocate(rows, id, d, given, level, samePath, missing), d, given, level, samePath)
  {
    var (next, result) := Relocate(rows, id, d, given, level, samePath, missing);
    if result.Success? {
      assert next.Keys == rows.Keys + {id};
    }
  }

  lemma InsertOutcome(rows: Rows, d: Directory, display: Option<Name>, level: Option<Level>, newId: Id, samePath: bool)
    ensures var given := if display.Some? then Some(Trim(display.value)) else None;
      Outcome(rows, Insert(rows, d, Trim(Or(display, d.base)), level, newId), d, given, level, samePath)
  {
  }

  /** What `add` does, for every registry and directory: refused, it changes nothing;
      accepted, exactly one active project stands for the directory. A directory that moved
      keeps the id of its project. */
  lemma AddOutcome(rows: Rows, d: Directory, display: Option<Name>, level: Option<Level>, samePath: bool, missing: bool, newId: Id)
    ensures var given := if display.Some? then Some(Trim(display.value)) else None;
      Outcome(rows, Add(rows, d, display, level, samePath, missing, newId), d, given, level, samePath)
  {
    var given := if display.Some? then Some(Trim(display.value)) else None;
    var root, inode := ByRoot(rows, d), ByInode(rows, d);
    AddCases(rows, d, display, level, samePath, missing, newId);
    if !IsDisplayName(Trim(Or(display, d.base))) {
    } else if root.Some? {
      ReaddOutcome(rows, root.value, d, given, level, samePath);
    } else if inode.Some? {
      RelocateOutcome(rows, inode.value, d, given, level, samePath, missing);
    } else {
      InsertOutcome(rows, d, display, level, newId, samePath);
    }
  }

  lemma AddCases(rows: Rows, d: Directory, display: Option<Name>, level: Option<Level>, samePath: bool, missing: bool, newId: Id)
    ensures var name := Trim(Or(display, d.base));
      var given := if display.Some? then Some(Trim(display.value)) else None;
      var root, inode := ByRoot(rows, d), ByInode(rows, d);
      Add(rows, d, display, level, samePath, missing, newId) ==
        if !IsDisplayName(name) then (rows, Failure(INVALID_INPUT))
        else if root.Some? then Readd(rows, root.value, d, given, level)
        else if inode.Some? then Relocate(rows, inode.value, d, given, level, samePath, missing)
        else Insert(rows, d, name, level, newId)
  {
  }

  lemma OutcomeContinues(rows: Rows, r: (Rows, Result<Change>), d: Directory, given: Option<Name>, level: Option<Level>, samePath: bool)
    requires Outcome(rows, r, d, given, level, samePath)
    requires r.1.Success? && r.1.value.id in rows ==> IsActive(rows, r.1.value.id)
    ensures Continues(rows, r.0)
  {
  }

  lemma StepContinues(rows: Rows, e: Event)
    ensures Continues(rows, Step(rows, e))
  {
    if e.AddEvent? {
      var given := if e.display.Some? then Some(Trim(e.display.value)) else None;
      AddOutcome(rows, e.d, e.display, e.level, e.samePath, e.missing, e.newId);
      TouchesActive(rows, e);
      OutcomeContinues(rows, Add(rows, e.d, e.display, e.level, e.samePath, e.missing, e.newId), e.d, given, e.level, e.samePath);
    }
  }

  lemma TouchesActive(rows: Rows, e: Event)
    requires e.AddEvent?
    ensures var result := Add(rows, e.d, e.display, e.level, e.samePath, e.missing, e.newId).1;
      result.Success? && result.value.id in rows ==> IsActive(rows, result.value.id)
  {
  }

  lemma {:induction false} RunContinues(rows: Rows, es: seq<Event>)
    ensures Continues(rows, Run(rows, es))
    decreases |es|
  {
    if es != [] {
      StepContinues(rows, es[0]);
      RunContinues(Step(rows, es[0]), es[1..]);
    }
  }

  /** A removed id is never active again, whatever is added later. */
  lemma RemovedNeverReturns(before: seq<Event>, later: seq<Event>, id: Id)
    requires id in Run(map[], before) && Run(map[], before)[id].removed
    ensures id in Run(Run(map[], before), later) && Run(Run(map[], before), later)[id] == Run(map[], before)[id]
  {
    RunContinues(Run(map[], before), later);
  }

  /** Every field of a row changes only by the operation that is for it: the root by a move
      of this inode, the name and the level by an owner who gives exactly that one, and the
      removal by a removal. */
  lemma WhatMayChange(rows: Rows, e: Event, id: Id)
    requires id in rows
    ensures var p, next := rows[id], Step(rows, e);
      && id in next
      && (next[id].root != p.root ==>
            e.AddEvent? && e.missing && !e.samePath && SameInode(rows, e.d, id) && p.birth == e.d.birth && next[id].root == e.d.root)
      && (next[id].name != p.name ==> e.AddEvent? && e.display.Some? && next[id].name == Trim(e.display.value))
      && (next[id].level != p.level ==> e == LevelEvent(id, next[id].level) || (e.AddEvent? && e.level == Some(next[id].level)))
      && (next[id].removed != p.removed ==> e == RemoveEvent(id, false))
  {
    if e.AddEvent? {
      var given := if e.display.Some? then Some(Trim(e.display.value)) else None;
      AddChanges(rows, e.d, e.display, given, e.level, e.samePath, e.missing, e.newId, id);
    }
  }

  predicate Changes(p: Project, q: Project, d: Directory, given: Option<Name>, level: Option<Level>, moves: bool) {
    && q.removed == p.removed
    && (q.root != p.root ==> moves && p.dev == d.dev && p.ino == d.ino && p.birth == d.birth && !p.removed && q.root == d.root)
    && (q.name != p.name ==> given == Some(q.name))
    && (q.level != p.level ==> level == Some(q.level))
  }

  lemma AddChanges(rows: Rows, d: Directory, display: Option<Name>, given: Option<Name>, level: Option<Level>, samePath: bool, missing: bool, newId: Id, id: Id)
    requires id in rows && given == if display.Some? then Some(Trim(display.value)) else None
    ensures var next := Add(rows, d, display, level, samePath, missing, newId).0;
      id in next && Changes(rows[id], next[id], d, given, level, missing && !samePath)
  {
    var root, inode := ByRoot(rows, d), ByInode(rows, d);
    AddCases(rows, d, display, level, samePath, missing, newId);
    if root.Some? {
      ReaddChanges(rows, root.value, d, given, level, id);
    } else if inode.Some? {
      RelocateChanges(rows, inode.value, d, given, level, samePath, missing, id);
    }
  }

  lemma ReaddChanges(rows: Rows, at: Id, d: Directory, given: Option<Name>, level: Option<Level>, id: Id)
    requires at in rows && id in rows
    ensures var next := Readd(rows, at, d, given, level).0;
      id in next && Changes(rows[id], next[id], d, given, level, false)
  {
  }

  lemma RelocateChanges(rows: Rows, at: Id, d: Directory, given: Option<Name>, level: Option<Level>, samePath: bool, missing: bool, id: Id)
    requires SameInode(rows, d, at) && id in rows
    ensures var next := Relocate(rows, at, d, given, level, samePath, missing).0;
      id in next && Changes(rows[id], next[id], d, given, level, missing && !samePath)
  {
  }

  // ---------------------------------------------------------------- finding by name

  predicate WithoutKelvin(s: Name) {
    forall k :: 0 <= k < |s| ==> s[k] != KELVIN
  }

  /** Some other active project spells this ASCII name with Kelvin signs for its k's. */
  ghost predicate KelvinTwin(rows: Rows, id: Id, twin: Id) {
    IsActive(rows, twin) && id in rows && !WithoutKelvin(rows[twin].name) && SqlLower(PlainK(rows[twin].name)) == SqlLower(rows[id].name)
  }

  lemma PlainKIsIdentity(s: Name)
    requires WithoutKelvin(s)
    ensures PlainK(s) == s
  {
  }

  lemma AsciiHasNoKelvin(s: Name)
    requires AllAscii(s)
    ensures WithoutKelvin(s)
  {
    forall k | 0 <= k < |s| ensures s[k] != KELVIN {
      assert IsAscii(s[k]);
    }
  }

  lemma CandidatesOf(rows: Rows, lower: Name -> Name, id: Id, other: Id)
    requires UniqueNames(rows) && WellNamed(rows) && IsUnicodeLower(lower)
    requires IsActive(rows, id) && AllAscii(rows[id].name)
    ensures other in Candidates(rows, lower, lower(Trim(rows[id].name))) <==> other == id || KelvinTwin(rows, id, other)
  {
    if IsActive(rows, other) {
      LowersAlike(lower, rows[id].name, rows[other].name);
      if WithoutKelvin(rows[other].name) {
        PlainKIsIdentity(rows[other].name);
      }
      AsciiHasNoKelvin(rows[id].name);
      PlainKIsIdentity(rows[id].name);
    }
  }

  /** Unique by SQL `lower` is not unique by JavaScript's lowercasing. After every run, the
      lookup of an active project by its own ASCII name answers with that project exactly if
      no other active name differs from it only in case and in Kelvin signs for k's. */
  lemma FoundByItsName(es: seq<Event>, lower: Name -> Name, id: Id)
    requires IsUnicodeLower(lower)
    requires IsActive(Run(map[], es), id) && AllAscii(Run(map[], es)[id].name)
    ensures var rows := Run(map[], es);
      FindByName(rows, lower, rows[id].name) == Success(Match(id)) <==> forall twin :: !KelvinTwin(rows, id, twin)
  {
    StartIsUnique();
    RunKeepsInv(map[], es);
    FoundIn(Run(map[], es), lower, id);
  }

  lemma FoundIn(rows: Rows, lower: Name -> Name, id: Id)
    requires UniqueNames(rows) && WellNamed(rows) && IsUnicodeLower(lower)
    requires IsActive(rows, id) && AllAscii(rows[id].name)
    ensures FindByName(rows, lower, rows[id].name) == Success(Match(id)) <==> forall twin :: !KelvinTwin(rows, id, twin)
  {
    var found := Candidates(rows, lower, lower(Trim(rows[id].name)));
    forall other ensures other in found <==> other == id || KelvinTwin(rows, id, other) {
      CandidatesOf(rows, lower, id, other);
    }
    NoTwinOfItself(rows, id);
    LowerOfAscii(lower, rows[id].name);
    if forall twin :: !KelvinTwin(rows, id, twin) {
      assert forall other :: other in found <==> other == id;
      assert found == {id};
    }
  }

  lemma NoTwinOfItself(rows: Rows, id: Id)
    requires IsActive(rows, id) && AllAscii(rows[id].name)
    ensures !KelvinTwin(rows, id, id)
  {
    AsciiHasNoKelvin(rows[id].name);
  }

  lemma LowerOfAscii(lower: Name -> Name, s: Name)
    requires IsUnicodeLower(lower) && AllAscii(s)
    ensures lower(s) == SqlLower(s)
  {
    AsciiHasNoKelvin(s);
    PlainKIsIdentity(s);
  }

  /** Two projects that `add` accepts, and the first is not found by its name any more. */
  lemma KelvinHidesAProject(lower: Name -> Name)
    requires IsUnicodeLower(lower)
    ensures var es := [
        AddEvent(Directory(1, 1, 1, 1, [107]), None, None, false, false, 1),
        AddEvent(Directory(2, 1, 2, 2, [KELVIN]), None, None, false, false, 2)];
      var rows := Run(map[], es);
      IsActive(rows, 1) && rows[1].name == [107] && FindByName(rows, lower, [107]) != Success(Match(1))
  {
    var a := AddEvent(Directory(1, 1, 1, 1, [107]), None, None, false, false, 1);
    var b := AddEvent(Directory(2, 1, 2, 2, [KELVIN]), None, None, false, false, 2);
    FirstProject();
    SecondProject();
    RunTwo(map[], a, b);
    StartIsUnique();
    RunKeepsInv(map[], [a, b]);
    TwinInTwo();
    FoundIn(TWO, lower, 1);
  }

  const ONE: Rows := map[1 := Project(1, 1, 1, 1, [107], Full, false)]
  const TWO: Rows := ONE[2 := Project(2, 1, 2, 2, [KELVIN], Full, false)]

  lemma InsertsNew(rows: Rows, d: Directory, newId: Id)
    requires IsDisplayName(d.base) && IsTrimmed(d.base) && !NameTaken(rows, d.base, None)
    requires ByRoot(rows, d).None? && ByInode(rows, d).None?
    requires |Active(rows)| < MAX_PROJECTS && newId !in rows
    ensures Add(rows, d, None, None, false, false, newId).0 == rows[newId := Project(d.root, d.dev, d.ino, d.birth, d.base, Full, false)]
  {
    var name := Trim(Or(None, d.base));
    assert name == d.base;
    AddCases(rows, d, None, None, false, false, newId);
    assert Add(rows, d, None, None, false, false, newId) == Insert(rows, d, d.base, None, newId);
  }

  lemma RunTwo(rows: Rows, a: Event, b: Event)
    ensures Run(rows, [a, b]) == Step(Step(rows, a), b)
  {
    assert [a, b][1..] == [b] && [b][1..] == [];
    assert Run(rows, [a, b]) == Run(Step(rows, a), [b]);
    assert Run(Step(rows, a), [b]) == Run(Step(Step(rows, a), b), []);
  }

  lemma TwinInTwo()
    ensures KelvinTwin(TWO, 1, 2)
  {
    assert TWO[1].name == [107] && TWO[2].name == [KELVIN];
    assert !WithoutKelvin([KELVIN]) by {
      assert [KELVIN][0] == KELVIN;
    }
    assert PlainK([KELVIN]) == [107];
  }

  lemma FirstProject()
    ensures Step(map[], AddEvent(Directory(1, 1, 1, 1, [107]), None, None, false, false, 1)) == ONE
  {
    assert Active(map[]) == {};
    InsertsNew(map[], Directory(1, 1, 1, 1, [107]), 1);
  }

  lemma SecondProject()
    ensures Step(ONE, AddEvent(Directory(2, 1, 2, 2, [KELVIN]), None, None, false, false, 2)) == TWO
  {
    assert Active(ONE) == {1};
    assert SqlLower([107])[0] != SqlLower([KELVIN])[0];
    InsertsNew(ONE, Directory(2, 1, 2, 2, [KELVIN]), 2);
  }
}

/** The project registry (src/projects/registry.ts): rows are never deleted, removal marks
    them. Paths, file identities and workspaces are numbers. */
module Registry {
  import opened Wrappers
  import opened Names

  type Id = int

  const MAX_PROJECTS := 1000
  const MAX_NAME := 120

  datatype Level = Read | Edit | Full

  datatype Project = Project(root: int, dev: int, ino: int, birth: int, name: Name, level: Level, removed: bool)

  type Rows = map<Id, Project>

  /** The candidate directory as the file system shows it, and its base name. */
  datatype Directory = Directory(root: int, dev: int, ino: int, birth: int, base: Name)

  /** How an accepted `add` ended. */
  datatype Change = Unchanged(id: Id) | Updated(id: Id) | Relocated(id: Id) | Added(id: Id)

  predicate IsControl(u: Unit) {
    0 <= u < 32 || u == 127
  }

  predicate IsDisplayName(s: Name) {
    1 <= |s| <= MAX_NAME && forall k :: 0 <= k < |s| ==> !IsControl(s[k])
  }

  predicate IsActive(rows: Rows, id: Id) {
    id in rows && !rows[id].removed
  }

  function Active(rows: Rows): set<Id> {
    set id | id in rows && !rows[id].removed
  }

  predicate NameTaken(rows: Rows, name: Name, except: Option<Id>) {
    exists id :: id in rows && !rows[id].removed && except != Some(id) && SqlLower(rows[id].name) == SqlLower(name)
  }

  predicate AtRoot(rows: Rows, d: Directory, id: Id) {
    id in rows && !rows[id].removed && rows[id].root == d.root
  }

  predicate SameInode(rows: Rows, d: Directory, id: Id) {
    id in rows && !rows[id].removed && rows[id].dev == d.dev && rows[id].ino == d.ino
  }

  ghost function ByRoot(rows: Rows, d: Directory): (found: Option<Id>)
    ensures found.Some? ==> AtRoot(rows, d, found.value)
    ensures found.None? ==> forall id :: !AtRoot(rows, d, id)
  {
    if id :| AtRoot(rows, d, id) then Some(id) else None
  }

  ghost function ByInode(rows: Rows, d: Directory): (found: Option<Id>)
    ensures found.Some? ==> SameInode(rows, d, found.value)
    ensures found.None? ==> forall id :: !SameInode(rows, d, id)
  {
    if id :| SameInode(rows, d, id) then Some(id) else None
  }

  function Or<T>(o: Option<T>, default: T): T {
    if o.Some? then o.value else default
  }

  /** The row at this root: the same directory may get another name or level. */
  function Readd(rows: Rows, id: Id, d: Directory, display: Option<Name>, level: Option<Level>): (Rows, Result<Change>)
    requires id in rows
  {
    var p := rows[id];
    if p.dev != d.dev || p.ino != d.ino || p.birth != d.birth then (rows, Failure(CONFLICT))
    else
      var name := Or(display, p.name);
      if name != p.name && NameTaken(rows, name, Some(id)) then (rows, Failure(CONFLICT))
      else if name != p.name || Or(level, p.level) != p.level then
        (rows[id := p.(name := name, level := Or(level, p.level))], Success(Updated(id)))
      else (rows, Success(Unchanged(id)))
  }

  /** The row of this inode at another root: only a directory that is missing there moved. */
  function Relocate(rows: Rows, id: Id, d: Directory, display: Option<Name>, level: Option<Level>, samePath: bool, missing: bool)
    : (Rows, Result<Change>)
    requires id in rows
  {
    var p := rows[id];
    if p.birth != d.birth then (rows, Failure(CONFLICT))
    else if samePath then (rows, Success(Unchanged(id)))
    else if !missing then (rows, Failure(CONFLICT))
    else
      var name := Or(display, p.name);
      if name != p.name && NameTaken(rows, name, Some(id)) then (rows, Failure(CONFLICT))
      else (rows[id := p.(root := d.root, name := name, level := Or(level, p.level), birth := d.birth)], Success(Relocated(id)))
  }

  function Insert(rows: Rows, d: Directory, name: Name, level: Option<Level>, newId: Id): (Rows, Result<Change>) {
    if |Active(rows)| >= MAX_PROJECTS then (rows, Failure(RESOURCE_LIMIT))
    else if NameTaken(rows, name, None) then (rows, Failure(CONFLICT))
    else if newId in rows then (rows, Failure(INTERNAL_ERROR))
    else (rows[newId := Project(d.root, d.dev, d.ino, d.birth, name, Or(level, Full), false)], Success(Added(newId)))
  }

  /** `samePath` says that the found row's root is the same path but for case (on Windows),
      `missing` that nothing is there any more. */
  ghost function Add(rows: Rows, d: Directory, display: Option<Name>, level: Option<Level>, samePath: bool, missing: bool, newId: Id)
    : (Rows, Result<Change>)
  {
    var name := Trim(Or(display, d.base));
    var given := if display.Some? then Some(name) else None;
    if !IsDisplayName(name) then (rows, Failure(INVALID_INPUT))
    else if ByRoot(rows, d).Some? then Readd(rows, ByRoot(rows, d).value, d, given, level)
    else if ByInode(rows, d).Some? then Relocate(rows, ByInode(rows, d).value, d, given, level, samePath, missing)
    else Insert(rows, d, name, level, newId)
  }

  function SetLevel(rows: Rows, id: Id, level: Level): (Rows, Result<()>) {
    if !IsActive(rows, id) then (rows, Failure(NOT_FOUND))
    else (rows[id := rows[id].(level := level)], Success(()))
  }

  /** `busy` says that jobs or agent runs are unfinished. */
  function Remove(rows: Rows, id: Id, busy: bool): (Rows, Result<()>) {
    if !IsActive(rows, id) then (rows, Failure(NOT_FOUND))
    else if busy then (rows, Failure(CONFLICT))
    else (rows[id := rows[id].(removed := true)], Success(()))
  }

  function Candidates(rows: Rows, lower: Name -> Name, wanted: Name): set<Id> {
    set id | id in rows && !rows[id].removed && lower(Trim(rows[id].name)) == wanted
  }

  datatype Lookup = Match(id: Id) | NoMatch(candidates: set<Id>)

  /** `findByName` answers only when there is exactly one candidate. */
  ghost function FindByName(rows: Rows, lower: Name -> Name, name: Name): Result<Lookup> {
    var wanted := lower(Trim(name));
    if wanted == [] then Failure(INVALID_INPUT)
    else
      var candidates := Candidates(rows, lower, wanted);
      if id :| candidates == {id} then Success(Match(id)) else Success(NoMatch(candidates))
  }

  // --------------------------------------------------------------- what must hold

  ghost predicate UniqueRoots(rows: Rows) {
    forall a, b :: IsActive(rows, a) && IsActive(rows, b) && rows[a].root == rows[b].root ==> a == b
  }

  ghost predicate UniqueInodes(rows: Rows) {
    forall a, b :: IsActive(rows, a) && IsActive(rows, b) && rows[a].dev == rows[b].dev && rows[a].ino == rows[b].ino ==> a == b
  }

  ghost predicate UniqueNames(rows: Rows) {
    forall a, b :: IsActive(rows, a) && IsActive(rows, b) && SqlLower(rows[a].name) == SqlLower(rows[b].name) ==> a == b
  }

  predicate WellNamed(rows: Rows) {
    forall id :: id in rows ==> IsDisplayName(rows[id].name) && IsTrimmed(rows[id].name)
  }

  ghost predicate Inv(rows: Rows) {
    UniqueRoots(rows) && UniqueInodes(rows) && UniqueNames(rows) && WellNamed(rows) && |Active(rows)| <= MAX_PROJECTS
  }
}

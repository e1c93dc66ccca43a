/** The second schema draft (backend/octopancake/modelsB.py): boards with a free-text
    layout type and optional rows/columns and no uniqueness of their own, buttons at unique
    board positions, a lookup table of functionality-type names, and assignments that tie
    a button to a type. The connection never switches foreign keys on, so no reference
    is checked. */
module ModelsB {
  import opened Sql

  /** A `button_board` row. */
  datatype Board = Board(
    id: int,
    name: Option<string>,
    layoutType: Option<string>,
    layoutRows: Option<int>,
    layoutColumns: Option<int>)

  /** A `button_config` row. */
  datatype Button = Button(
    id: int,
    boardId: Option<int>,
    x: Option<int>,
    y: Option<int>,
    imageFilename: Option<string>)

  /** A `functionality_type` row. */
  datatype FunctionalityType = FunctionalityType(id: int, name: Option<string>)

  /** A `functionality_assignment` row. */
  datatype Assignment = Assignment(
    id: int,
    buttonId: Option<int>,
    typeId: Option<int>,
    appName: Option<string>,
    scriptPath: Option<string>,
    targetBoardId: Option<int>)

  /** The constraint that refused an insert. */
  datatype Violation =
    | PrimaryKey            // the id is already taken
    | ImageFilenameCheck    // image_filename NOT LIKE '%/%' is false
    | UniqueButtonPosition  // UNIQUE (button_board_id, position_x, position_y)
    | UniqueTypeName        // UNIQUE (name) of functionality_type

  function BoardId(row: Board): int { row.id }

  function ButtonId(row: Button): int { row.id }

  function TypeId(row: FunctionalityType): int { row.id }

  function AssignmentId(row: Assignment): int { row.id }

  /** Two buttons collide under the table's UNIQUE (board, x, y). */
  predicate PositionClash(a: Button, b: Button)
  {
    SameKey(a.boardId, b.boardId) && SameKey(a.x, b.x) && SameKey(a.y, b.y)
  }

  /** Two type rows collide under `name`'s UNIQUE. */
  predicate NameClash(a: FunctionalityType, b: FunctionalityType)
  {
    SameKey(a.name, b.name)
  }

  predicate ButtonTableOk(buttons: seq<Button>)
  {
    Distinct(Ids(buttons, ButtonId)) && Pairwise(buttons, PositionClash)
    && forall i :: 0 <= i < |buttons| ==> NoSlashCheck(buttons[i].imageFilename)
  }

  predicate TypeTableOk(types: seq<FunctionalityType>)
  {
    Distinct(Ids(types, TypeId)) && Pairwise(types, NameClash)
  }

  /** Every declared constraint of the draft. Boards and assignments carry only their
      primary keys, and no foreign key is enforced. */
  predicate Consistent(
    boards: seq<Board>, buttons: seq<Button>, types: seq<FunctionalityType>, assignments: seq<Assignment>)
  {
    Distinct(Ids(boards, BoardId)) && ButtonTableOk(buttons) && TypeTableOk(types)
    && Distinct(Ids(assignments, AssignmentId))
  }

  function BoardViolation(boards: seq<Board>, row: Board): Option<Violation>
  {
    if row.id in Ids(boards, BoardId) then Some(PrimaryKey) else None
  }

  /** The first constraint a new button would break, if any: the CHECK, the key, then the
      position. No board table is consulted. */
  function ButtonViolation(buttons: seq<Button>, row: Button): Option<Violation>
  {
    if !NoSlashCheck(row.imageFilename) then Some(ImageFilenameCheck)
    else if row.id in Ids(buttons, ButtonId) then Some(PrimaryKey)
    else if exists i :: 0 <= i < |buttons| && PositionClash(buttons[i], row) then Some(UniqueButtonPosition)
    else None
  }

  function TypeViolation(types: seq<FunctionalityType>, row: FunctionalityType): Option<Violation>
  {
    if row.id in Ids(types, TypeId) then Some(PrimaryKey)
    else if exists i :: 0 <= i < |types| && NameClash(types[i], row) then Some(UniqueTypeName)
    else None
  }

  function AssignmentViolation(assignments: seq<Assignment>, row: Assignment): Option<Violation>
  {
    if row.id in Ids(assignments, AssignmentId) then Some(PrimaryKey) else None
  }

  /** A board is admitted exactly when its id is free: whatever its layout type string,
      rows and columns. */
  lemma BoardAdmission(boards: seq<Board>, row: Board)
    requires Distinct(Ids(boards, BoardId))
    ensures BoardViolation(boards, row).None? <==> Distinct(Ids(boards + [row], BoardId))
    ensures BoardViolation(boards, row).None? <==> row.id !in Ids(boards, BoardId)
  {
    assert Ids(boards + [row], BoardId) == Ids(boards, BoardId) + [row.id];
    DistinctAppend(Ids(boards, BoardId), row.id);
  }

  /** A button is admitted exactly when the button table still meets its constraints with it. */
  lemma ButtonAdmission(buttons: seq<Button>, row: Button)
    requires ButtonTableOk(buttons)
    ensures ButtonViolation(buttons, row).None? <==> ButtonTableOk(buttons + [row])
  {
    var all := buttons + [row];
    assert Ids(all, ButtonId) == Ids(buttons, ButtonId) + [row.id];
    DistinctAppend(Ids(buttons, ButtonId), row.id);
    PairwiseAppend(buttons, row, PositionClash);
    assert all[|buttons|] == row;
    if NoSlashCheck(row.imageFilename) {
      forall i | 0 <= i < |all| ensures NoSlashCheck(all[i].imageFilename) {
        if i < |buttons| { assert all[i] == buttons[i]; }
      }
    }
  }

  /** A button with a NULL board id, like the one the module body inserts, is admitted
      whenever its filename has no slash and its id is free: NULL never collides under the
      position constraint, and no board is looked up. */
  lemma NullBoardIdAdmitted(buttons: seq<Button>, row: Button)
    requires ButtonTableOk(buttons)
    requires row.id !in Ids(buttons, ButtonId)
    requires row.imageFilename.None? || '/' !in row.imageFilename.value
    requires row.boardId.None?
    ensures ButtonViolation(buttons, row).None?
    ensures ButtonTableOk(buttons + [row])
  {
    NoSlashCheckMeaning(row.imageFilename);
    ButtonAdmission(buttons, row);
  }

  /** A type row is admitted exactly when the lookup table still meets its constraints with it. */
  lemma TypeAdmission(types: seq<FunctionalityType>, row: FunctionalityType)
    requires TypeTableOk(types)
    ensures TypeViolation(types, row).None? <==> TypeTableOk(types + [row])
  {
    assert Ids(types + [row], TypeId) == Ids(types, TypeId) + [row.id];
    DistinctAppend(Ids(types, TypeId), row.id);
    PairwiseAppend(types, row, NameClash);
  }

  /** The names stored in the lookup table. */
  function TypeNames(types: seq<FunctionalityType>): (names: set<string>)
    ensures forall n :: n in names <==> exists i :: 0 <= i < |types| && types[i].name == Some(n)
  {
    set i | 0 <= i < |types| && types[i].name.Some? :: types[i].name.value
  }

  /** The set of kinds is open: a name not yet in the table is always admitted under a fresh id. */
  lemma NewTypeNameAdmitted(types: seq<FunctionalityType>, name: string)
    requires TypeTableOk(types)
    requires name !in TypeNames(types)
    ensures TypeViolation(types, FunctionalityType(NextRowId(Ids(types, TypeId)), Some(name))).None?
    ensures TypeTableOk(types + [FunctionalityType(NextRowId(Ids(types, TypeId)), Some(name))])
  {
  }

  /** The type row of a given name, if the lookup table has one. */
  function TypeNamed(types: seq<FunctionalityType>, name: string): (r: Option<FunctionalityType>)
    ensures r.Some? ==> r.value in types && r.value.name == Some(name)
    ensures r.None? ==> name !in TypeNames(types)
  {
    if types == [] then None
    else if types[0].name == Some(name) then Some(types[0])
    else
      var r := TypeNamed(types[1..], name);
      assert forall i :: 1 <= i < |types| ==> types[i] == types[1..][i - 1];
      r
  }

  /** With `name` unique, a name picks out exactly one row of the lookup table. */
  lemma TypeNamedIsTheOnlyRow(types: seq<FunctionalityType>, k: int)
    requires TypeTableOk(types)
    requires 0 <= k < |types| && types[k].name.Some?
    ensures TypeNamed(types, types[k].name.value) == Some(types[k])
  {
  }

  /** An assignment is admitted exactly when its id is free, so one button may hold any
      number of assignments, and neither its button, its type nor its target board is looked up. */
  lemma AssignmentAdmission(assignments: seq<Assignment>, row: Assignment)
    requires Distinct(Ids(assignments, AssignmentId))
    ensures AssignmentViolation(assignments, row).None? <==> Distinct(Ids(assignments + [row], AssignmentId))
    ensures AssignmentViolation(assignments, row).None? <==> row.id !in Ids(assignments, AssignmentId)
  {
    assert Ids(assignments + [row], AssignmentId) == Ids(assignments, AssignmentId) + [row.id];
    DistinctAppend(Ids(assignments, AssignmentId), row.id);
  }

  /** Two assignments for the same button sit together in a consistent table. */
  lemma SeveralAssignmentsPerButton(assignments: seq<Assignment>, first: Assignment, second: Assignment)
    requires Distinct(Ids(assignments, AssignmentId))
    requires first.buttonId == second.buttonId
    requires first.id != second.id
    requires first.id !in Ids(assignments, AssignmentId) && second.id !in Ids(assignments, AssignmentId)
    ensures AssignmentViolation(assignments, first).None?
    ensures AssignmentViolation(assignments + [first], second).None?
    ensures Distinct(Ids(assignments + [first, second], AssignmentId))
  {
  }

  /** The `button_board`, `button_config`, `functionality_type` and
      `functionality_assignment` tables of one database. */
  class Database {
    var boards: seq<Board>
    var buttons: seq<Button>
    var types: seq<FunctionalityType>
    var assignments: seq<Assignment>

    ghost predicate Valid()
      reads this
    {
      Consistent(boards, buttons, types, assignments)
    }

    constructor()
      ensures Valid()
      ensures boards == [] && buttons == [] && types == [] && assignments == []
    {
      boards, buttons, types, assignments := [], [], [], [];
    }

    method InsertBoard(
      id: Option<int>, name: Option<string>, layoutType: Option<string>,
      layoutRows: Option<int>, layoutColumns: Option<int>) returns (r: Outcome<Violation>)
      requires Valid()
      modifies this
      ensures Valid()
      ensures buttons == old(buttons) && types == old(types) && assignments == old(assignments)
      ensures r.Rejected? <==> id.Some? && id.value in Ids(old(boards), BoardId)
      ensures var row := Board(ResolveId(Ids(old(boards), BoardId), id), name, layoutType, layoutRows, layoutColumns);
              (r.Inserted? ==> r == Inserted(row.id) && boards == old(boards) + [row])
              && (r.Rejected? ==> r == Rejected(PrimaryKey) && boards == old(boards))
    {
      var row := Board(ResolveId(Ids(boards, BoardId), id), name, layoutType, layoutRows, layoutColumns);
      BoardAdmission(boards, row);
      var v := BoardViolation(boards, row);
      if v.Some? {
        r := Rejected(v.value);
      } else {
        boards := boards + [row];
        r := Inserted(row.id);
      }
    }

    method InsertButton(
      id: Option<int>, boardId: Option<int>, x: Option<int>, y: Option<int>,
      imageFilename: Option<string>) returns (r: Outcome<Violation>)
      requires Valid()
      modifies this
      ensures Valid()
      ensures boards == old(boards) && types == old(types) && assignments == old(assignments)
      ensures var row := Button(ResolveId(Ids(old(buttons), ButtonId), id), boardId, x, y, imageFilename);
              var v := ButtonViolation(old(buttons), row);
              (v.None? ==> r == Inserted(row.id) && buttons == old(buttons) + [row])
              && (v.Some? ==> r == Rejected(v.value) && buttons == old(buttons))
    {
      var row := Button(ResolveId(Ids(buttons, ButtonId), id), boardId, x, y, imageFilename);
      var v := ButtonViolation(buttons, row);
      if v.Some? {
        r := Rejected(v.value);
      } else {
        ButtonAdmission(buttons, row);
        buttons := buttons + [row];
        r := Inserted(row.id);
      }
    }

    method InsertFunctionalityType(id: Option<int>, name: Option<string>) returns (r: Outcome<Violation>)
      requires Valid()
      modifies this
      ensures Valid()
      ensures boards == old(boards) && buttons == old(buttons) && assignments == old(assignments)
      ensures id.None? && name.Some? && name.value !in TypeNames(old(types)) ==> r.Inserted?
      ensures var row := FunctionalityType(ResolveId(Ids(old(types), TypeId), id), name);
              var v := TypeViolation(old(types), row);
              (v.None? ==> r == Inserted(row.id) && types == old(types) + [row])
              && (v.Some? ==> r == Rejected(v.value) && types == old(types))
    {
      var row := FunctionalityType(ResolveId(Ids(types, TypeId), id), name);
      if id.None? && name.Some? && name.value !in TypeNames(types) {
        NewTypeNameAdmitted(types, name.value);
      }
      var v := TypeViolation(types, row);
      if v.Some? {
        r := Rejected(v.value);
      } else {
        TypeAdmission(types, row);
        types := types + [row];
        r := Inserted(row.id);
      }
    }

    method InsertAssignment(
      id: Option<int>, buttonId: Option<int>, typeId: Option<int>, appName: Option<string>,
      scriptPath: Option<string>, targetBoardId: Option<int>) returns (r: Outcome<Violation>)
      requires Valid()
      modifies this
      ensures Valid()
      ensures boards == old(boards) && buttons == old(buttons) && types == old(types)
      ensures r.Rejected? <==> id.Some? && id.value in Ids(old(assignments), AssignmentId)
      ensures var row := Assignment(ResolveId(Ids(old(assignments), AssignmentId), id), buttonId, typeId, appName, scriptPath, targetBoardId);
              (r.Inserted? ==> r == Inserted(row.id) && assignments == old(assignments) + [row])
              && (r.Rejected? ==> r == Rejected(PrimaryKey) && assignments == old(assignments))
    {
      var row := Assignment(ResolveId(Ids(assignments, AssignmentId), id), buttonId, typeId, appName, scriptPath, targetBoardId);
      AssignmentAdmission(assignments, row);
      var v := AssignmentViolation(assignments, row);
      if v.Some? {
        r := Rejected(v.value);
      } else {
        assignments := assignments + [row];
        r := Inserted(row.id);
      }
    }
  }

  /** The module body's inserts, in order, on an empty database (a fresh `data.sqlite`; a
      second run would meet the UNIQUE `name` when it adds `app_switch` again). Each object
      is added before any flush, so the
      ids it copies from the board, the button and the type are still NULL, and every insert
      succeeds. The image filename (`button_image.png`) is a parameter: any slash-free name
      behaves alike. */
  method Demo(image: string)
    returns (board: Outcome<Violation>, button: Outcome<Violation>, kind: Outcome<Violation>,
             assignment: Outcome<Violation>)
    requires '/' !in image
    ensures board == Inserted(1) && button == Inserted(1) && kind == Inserted(1) && assignment == Inserted(1)
  {
    NoSlashCheckMeaning(Some(image));
    var db := new Database();
    board := db.InsertBoard(None, Some("My Board"), Some("8x4"), None, None);
    button := db.InsertButton(None, None, Some(0), Some(0), Some(image));
    kind := db.InsertFunctionalityType(None, Some("app_switch"));
    assignment := db.InsertAssignment(None, None, None, Some("Calculator"), None, None);
  }
}

/** The first schema draft (backend/octopancake/modelsA.py): boards with a closed
    layout enumeration and optional width/height, buttons at unique board positions
    carrying a closed functionality kind, and at most one functionality-data row per
    button. Foreign keys are enforced when the connection switches them on. */
module ModelsA {
  import opened Sql

  /** `LayoutType`; SQLAlchemy's Enum column stores the member's name. */
  datatype LayoutType = Grid8x4 | Custom

  /** `ButtonFunctionalityType`. */
  datatype FunctionalityKind = AppSwitch | RunScript | PageSwitch

  function LayoutTypeName(t: LayoutType): string
  {
    match t
    case Grid8x4 => "GRID_8x4"
    case Custom => "CUSTOM"
  }

  /** Reads a stored `layout_type` back; only the enumeration's names are accepted. */
  function ParseLayoutType(s: string): (r: Option<LayoutType>)
    ensures r.Some? <==> s == "GRID_8x4" || s == "CUSTOM"
    ensures r.Some? ==> LayoutTypeName(r.value) == s
  {
    if s == "GRID_8x4" then Some(Grid8x4)
    else if s == "CUSTOM" then Some(Custom)
    else None
  }

  lemma LayoutTypeRoundTrip(t: LayoutType)
    ensures ParseLayoutType(LayoutTypeName(t)) == Some(t)
  {
  }

  function FunctionalityKindName(k: FunctionalityKind): string
  {
    match k
    case AppSwitch => "APP_SWITCH"
    case RunScript => "RUN_SCRIPT"
    case PageSwitch => "PAGE_SWITCH"
  }

  /** Reads a stored `functionality_type` back; only the enumeration's names are accepted. */
  function ParseFunctionalityKind(s: string): (r: Option<FunctionalityKind>)
    ensures r.Some? <==> s == "APP_SWITCH" || s == "RUN_SCRIPT" || s == "PAGE_SWITCH"
    ensures r.Some? ==> FunctionalityKindName(r.value) == s
  {
    if s == "APP_SWITCH" then Some(AppSwitch)
    else if s == "RUN_SCRIPT" then Some(RunScript)
    else if s == "PAGE_SWITCH" then Some(PageSwitch)
    else None
  }

  lemma FunctionalityKindRoundTrip(k: FunctionalityKind)
    ensures ParseFunctionalityKind(FunctionalityKindName(k)) == Some(k)
  {
  }

  /** A `button_board` row. */
  datatype Board = Board(
    id: int,
    name: Option<string>,
    layoutType: Option<LayoutType>,
    layoutWidth: Option<int>,
    layoutHeight: Option<int>)

  /** A `button_config` row. */
  datatype Button = Button(
    id: int,
    boardId: Option<int>,
    x: Option<int>,
    y: Option<int>,
    imageFilename: Option<string>,
    kind: Option<FunctionalityKind>)

  /** A `button_functionality_data` row. */
  datatype FunctionalityData = FunctionalityData(
    id: int,
    buttonId: Option<int>,
    appName: Option<string>,
    scriptPath: Option<string>,
    targetBoardId: Option<int>)

  /** The constraint that refused an insert. */
  datatype Violation =
    | PrimaryKey            // the id is already taken
    | ImageFilenameCheck    // image_filename NOT LIKE '%/%' is false
    | UniqueCustomLayout    // unique_custom_layout
    | UniqueButtonPosition  // unique_button_position
    | OneToOne              // a second functionality-data row for one button
    | ForeignKey            // a reference to a missing row, with enforcement on

  function BoardId(row: Board): int { row.id }

  function ButtonId(row: Button): int { row.id }

  function DataId(row: FunctionalityData): int { row.id }

  /** Two boards collide under `unique_custom_layout`. */
  predicate ShapeClash(a: Board, b: Board)
  {
    SameKey(a.layoutType, b.layoutType) && SameKey(a.layoutWidth, b.layoutWidth)
    && SameKey(a.layoutHeight, b.layoutHeight)
  }

  /** Two buttons collide under `unique_button_position`. */
  predicate PositionClash(a: Button, b: Button)
  {
    SameKey(a.boardId, b.boardId) && SameKey(a.x, b.x) && SameKey(a.y, b.y)
  }

  /** Two functionality-data rows belong to the same button. */
  predicate SameButton(a: FunctionalityData, b: FunctionalityData)
  {
    SameKey(a.buttonId, b.buttonId)
  }

  predicate BoardTableOk(boards: seq<Board>)
  {
    Distinct(Ids(boards, BoardId)) && Pairwise(boards, ShapeClash)
  }

  predicate ButtonTableOk(buttons: seq<Button>)
  {
    Distinct(Ids(buttons, ButtonId)) && Pairwise(buttons, PositionClash)
    && forall i :: 0 <= i < |buttons| ==> NoSlashCheck(buttons[i].imageFilename)
  }

  predicate DataTableOk(data: seq<FunctionalityData>)
  {
    Distinct(Ids(data, DataId)) && Pairwise(data, SameButton)
  }

  /** Every foreign key is NULL or names an existing row. */
  predicate ReferencesOk(boards: seq<Board>, buttons: seq<Button>, data: seq<FunctionalityData>)
  {
    (forall i :: 0 <= i < |buttons| ==> References(Ids(boards, BoardId), buttons[i].boardId))
    && (forall k :: 0 <= k < |data| ==>
          References(Ids(buttons, ButtonId), data[k].buttonId)
          && References(Ids(boards, BoardId), data[k].targetBoardId))
  }

  /** Every declared constraint of the draft; foreign keys only when enforced. */
  predicate Consistent(foreignKeys: bool, boards: seq<Board>, buttons: seq<Button>, data: seq<FunctionalityData>)
  {
    BoardTableOk(boards) && ButtonTableOk(buttons) && DataTableOk(data)
    && (foreignKeys ==> ReferencesOk(boards, buttons, data))
  }

  /** The first constraint a new board would break, if any. */
  function BoardViolation(boards: seq<Board>, row: Board): Option<Violation>
  {
    if row.id in Ids(boards, BoardId) then Some(PrimaryKey)
    else if exists i :: 0 <= i < |boards| && ShapeClash(boards[i], row) then Some(UniqueCustomLayout)
    else None
  }

  /** The first constraint a new button would break, if any: the CHECK, the key,
      the position, then the board reference. */
  function ButtonViolation(foreignKeys: bool, boards: seq<Board>, buttons: seq<Button>, row: Button): Option<Violation>
  {
    if !NoSlashCheck(row.imageFilename) then Some(ImageFilenameCheck)
    else if row.id in Ids(buttons, ButtonId) then Some(PrimaryKey)
    else if exists i :: 0 <= i < |buttons| && PositionClash(buttons[i], row) then Some(UniqueButtonPosition)
    else if foreignKeys && !References(Ids(boards, BoardId), row.boardId) then Some(ForeignKey)
    else None
  }

  /** The first constraint a new functionality-data row would break, if any. */
  function DataViolation(
    foreignKeys: bool, boards: seq<Board>, buttons: seq<Button>,
    data: seq<FunctionalityData>, row: FunctionalityData): Option<Violation>
  {
    if row.id in Ids(data, DataId) then Some(PrimaryKey)
    else if exists k :: 0 <= k < |data| && SameButton(data[k], row) then Some(OneToOne)
    else if foreignKeys
            && !(References(Ids(buttons, ButtonId), row.buttonId) && References(Ids(boards, BoardId), row.targetBoardId))
    then Some(ForeignKey)
    else None
  }

  /** A board is admitted exactly when the board table still meets its constraints with it. */
  lemma BoardAdmission(boards: seq<Board>, row: Board)
    requires BoardTableOk(boards)
    ensures BoardViolation(boards, row).None? <==> BoardTableOk(boards + [row])
  {
    assert Ids(boards + [row], BoardId) == Ids(boards, BoardId) + [row.id];
    DistinctAppend(Ids(boards, BoardId), row.id);
    PairwiseAppend(boards, row, ShapeClash);
  }

  /** A button is admitted exactly when the button table still meets its constraints with
      it and, with enforcement on, its board exists. */
  lemma ButtonAdmission(foreignKeys: bool, boards: seq<Board>, buttons: seq<Button>, row: Button)
    requires ButtonTableOk(buttons)
    ensures ButtonViolation(foreignKeys, boards, buttons, row).None?
        <==> ButtonTableOk(buttons + [row]) && (foreignKeys ==> References(Ids(boards, BoardId), row.boardId))
  {
    var all := buttons + [row];
    assert Ids(all, ButtonId) == Ids(buttons, ButtonId) + [row.id];
    DistinctAppend(Ids(buttons, ButtonId), row.id);
    PairwiseAppend(buttons, row, PositionClash);
    assert all[|buttons|] == row;
    if NoSlashCheck(row.imageFilename) {
      forall i | 0 <= i < |all| ensures NoSlashCheck(all[i].imageFilename) {
        if i < |buttons| { assert all[i] == buttons[i]; }
      }
    }
  }

  /** A functionality-data row is admitted exactly when its button has no row yet, its id
      is free and, with enforcement on, the button and target board exist. */
  lemma DataAdmission(
    foreignKeys: bool, boards: seq<Board>, buttons: seq<Button>,
    data: seq<FunctionalityData>, row: FunctionalityData)
    requires DataTableOk(data)
    ensures DataViolation(foreignKeys, boards, buttons, data, row).None?
        <==> DataTableOk(data + [row])
             && (foreignKeys ==> (References(Ids(buttons, ButtonId), row.buttonId)
                                  && References(Ids(boards, BoardId), row.targetBoardId)))
  {
    assert Ids(data + [row], DataId) == Ids(data, DataId) + [row.id];
    DistinctAppend(Ids(data, DataId), row.id);
    PairwiseAppend(data, row, SameButton);
  }

  /** Adding a board or a button never breaks a reference that already resolves. */
  lemma ReferencesGrow(boards: seq<Board>, buttons: seq<Button>, data: seq<FunctionalityData>, boards': seq<Board>, buttons': seq<Button>)
    requires ReferencesOk(boards, buttons, data)
    requires |boards| <= |boards'| && boards'[..|boards|] == boards
    requires |buttons| <= |buttons'| && buttons'[..|buttons|] == buttons
    requires forall i :: |buttons| <= i < |buttons'| ==> References(Ids(boards', BoardId), buttons'[i].boardId)
    ensures ReferencesOk(boards', buttons', data)
  {
  }

  /** The demo board: a GRID_8x4 layout with NULL width and height. A board whose width or
      height is NULL never collides under `unique_custom_layout`, so any number of them fit. */
  lemma NullShapeNeverCollides(boards: seq<Board>, row: Board)
    requires BoardTableOk(boards)
    requires row.layoutType.None? || row.layoutWidth.None? || row.layoutHeight.None?
    requires row.id !in Ids(boards, BoardId)
    ensures BoardViolation(boards, row).None?
    ensures BoardTableOk(boards + [row])
  {
  }

  /** A board's `buttons` collection: the button rows whose board id is that board's, in
      table order. */
  function ButtonsOf(buttons: seq<Button>, boardId: int): (r: seq<Button>)
    ensures forall b :: b in r <==> b in buttons && b.boardId == Some(boardId)
    ensures |r| <= |buttons|
  {
    if buttons == [] then []
    else
      var rest := ButtonsOf(buttons[1..], boardId);
      assert forall b :: b in buttons <==> b == buttons[0] || b in buttons[1..];
      if buttons[0].boardId == Some(boardId) then [buttons[0]] + rest else rest
  }

  /** Inserting a button extends exactly its own board's collection, at the end. */
  lemma {:induction false} ButtonsOfAppend(buttons: seq<Button>, row: Button, boardId: int)
    ensures ButtonsOf(buttons + [row], boardId)
         == ButtonsOf(buttons, boardId) + (if row.boardId == Some(boardId) then [row] else [])
  {
    if buttons == [] {
      assert buttons + [row] == [row];
    } else {
      assert (buttons + [row])[1..] == buttons[1..] + [row];
      ButtonsOfAppend(buttons[1..], row, boardId);
    }
  }

  /** A button's `functionality_data`: the data row that names it, if any. */
  function DataOf(data: seq<FunctionalityData>, buttonId: int): (r: Option<FunctionalityData>)
    ensures r.Some? ==> r.value in data && r.value.buttonId == Some(buttonId)
    ensures r.None? ==> forall k :: 0 <= k < |data| ==> data[k].buttonId != Some(buttonId)
  {
    if data == [] then None
    else if data[0].buttonId == Some(buttonId) then Some(data[0])
    else DataOf(data[1..], buttonId)
  }

  /** With the one-to-one constraint, a button's data row is the only one that names it. */
  lemma DataOfIsTheOnlyRow(data: seq<FunctionalityData>, k: int)
    requires DataTableOk(data)
    requires 0 <= k < |data| && data[k].buttonId.Some?
    ensures DataOf(data, data[k].buttonId.value) == Some(data[k])
  {
  }

  /** `target_board`: the board a functionality-data row switches to, if it resolves. */
  function TargetBoard(boards: seq<Board>, row: FunctionalityData): (r: Option<Board>)
    ensures r.Some? ==> r.value in boards && row.targetBoardId == Some(r.value.id)
    ensures r.None? && row.targetBoardId.Some? ==> row.targetBoardId.value !in Ids(boards, BoardId)
  {
    if row.targetBoardId.None? then None else FindBoard(boards, row.targetBoardId.value)
  }

  function FindBoard(boards: seq<Board>, id: int): (r: Option<Board>)
    ensures r.Some? ==> r.value in boards && r.value.id == id
    ensures r.None? ==> id !in Ids(boards, BoardId)
  {
    if boards == [] then None
    else if boards[0].id == id then Some(boards[0])
    else
      var r := FindBoard(boards[1..], id);
      assert Ids(boards, BoardId) == [boards[0].id] + Ids(boards[1..], BoardId);
      r
  }

  /** With foreign keys enforced, every stored target board id resolves to a board. */
  lemma TargetResolves(boards: seq<Board>, buttons: seq<Button>, data: seq<FunctionalityData>, k: int)
    requires Consistent(true, boards, buttons, data)
    requires 0 <= k < |data| && data[k].targetBoardId.Some?
    ensures TargetBoard(boards, data[k]).Some?
  {
  }

  /** The `button_board`, `button_config` and `button_functionality_data` tables of one
      database; `foreignKeys` is the connection's `PRAGMA foreign_keys=ON`. */
  class Database {
    const foreignKeys: bool
    var boards: seq<Board>
    var buttons: seq<Button>
    var data: seq<FunctionalityData>

    ghost predicate Valid()
      reads this
    {
      Consistent(foreignKeys, boards, buttons, data)
    }

    constructor(foreignKeys: bool)
      ensures Valid()
      ensures this.foreignKeys == foreignKeys
      ensures boards == [] && buttons == [] && data == []
    {
      this.foreignKeys := foreignKeys;
      boards, buttons, data := [], [], [];
    }

    method InsertBoard(
      id: Option<int>, name: Option<string>, layoutType: Option<LayoutType>,
      layoutWidth: Option<int>, layoutHeight: Option<int>) returns (r: Outcome<Violation>)
      requires Valid()
      modifies this
      ensures Valid()
      ensures buttons == old(buttons) && data == old(data)
      ensures var row := Board(ResolveId(Ids(old(boards), BoardId), id), name, layoutType, layoutWidth, layoutHeight);
              var v := BoardViolation(old(boards), row);
              (v.None? ==> r == Inserted(row.id) && boards == old(boards) + [row])
              && (v.Some? ==> r == Rejected(v.value) && boards == old(boards))
    {
      var row := Board(ResolveId(Ids(boards, BoardId), id), name, layoutType, layoutWidth, layoutHeight);
      var v := BoardViolation(boards, row);
      if v.Some? {
        r := Rejected(v.value);
      } else {
        BoardAdmission(boards, row);
        if foreignKeys {
          ReferencesGrow(boards, buttons, data, boards + [row], buttons);
        }
        boards := boards + [row];
        r := Inserted(row.id);
      }
    }

    method InsertButton(
      id: Option<int>, boardId: Option<int>, x: Option<int>, y: Option<int>,
      imageFilename: Option<string>, kind: Option<FunctionalityKind>) returns (r: Outcome<Violation>)
      requires Valid()
      modifies this
      ensures Valid()
      ensures boards == old(boards) && data == old(data)
      ensures var row := Button(ResolveId(Ids(old(buttons), ButtonId), id), boardId, x, y, imageFilename, kind);
              var v := ButtonViolation(foreignKeys, old(boards), old(buttons), row);
              (v.None? ==> r == Inserted(row.id) && buttons == old(buttons) + [row])
              && (v.Some? ==> r == Rejected(v.value) && buttons == old(buttons))
    {
      var row := Button(ResolveId(Ids(buttons, ButtonId), id), boardId, x, y, imageFilename, kind);
      var v := ButtonViolation(foreignKeys, boards, buttons, row);
      if v.Some? {
        r := Rejected(v.value);
      } else {
        ButtonAdmission(foreignKeys, boards, buttons, row);
        if foreignKeys {
          ReferencesGrow(boards, buttons, data, boards, buttons + [row]);
        }
        buttons := buttons + [row];
        r := Inserted(row.id);
      }
    }

    method InsertFunctionalityData(
      id: Option<int>, buttonId: Option<int>, appName: Option<string>,
      scriptPath: Option<string>, targetBoardId: Option<int>) returns (r: Outcome<Violation>)
      requires Valid()
      modifies this
      ensures Valid()
      ensures boards == old(boards) && buttons == old(buttons)
      ensures var row := FunctionalityData(ResolveId(Ids(old(data), DataId), id), buttonId, appName, scriptPath, targetBoardId);
              var v := DataViolation(foreignKeys, old(boards), old(buttons), old(data), row);
              (v.None? ==> r == Inserted(row.id) && data == old(data) + [row])
              && (v.Some? ==> r == Rejected(v.value) && data == old(data))
    {
      var row := FunctionalityData(ResolveId(Ids(data, DataId), id), buttonId, appName, scriptPath, targetBoardId);
      var v := DataViolation(foreignKeys, boards, buttons, data, row);
      if v.Some? {
        r := Rejected(v.value);
      } else {
        DataAdmission(foreignKeys, boards, buttons, data, row);
        data := data + [row];
        r := Inserted(row.id);
      }
    }
  }

  /** The demo's rows, inserted in the order a flush writes them, on a connection with
      foreign keys on. Its image filenames (`button1.png`, `button2.png`) are parameters
      here: any slash-free names behave alike. The page-switch data row names board 2,
      which does not exist, so that insert is refused. */
  method Demo(image1: string, image2: string)
    returns (board: Outcome<Violation>, button1: Outcome<Violation>, button2: Outcome<Violation>,
             data1: Outcome<Violation>, data2: Outcome<Violation>)
    requires '/' !in image1 && '/' !in image2
    ensures board == Inserted(1) && button1 == Inserted(1) && button2 == Inserted(2)
    ensures data1 == Inserted(1)
    ensures data2 == Rejected(ForeignKey)
  {
    NoSlashCheckMeaning(Some(image1));
    NoSlashCheckMeaning(Some(image2));
    var db := new Database(true);
    board := db.InsertBoard(None, Some("My Board"), Some(Grid8x4), None, None);
    assert Ids(db.boards, BoardId)[0] == 1;
    button1 := db.InsertButton(None, Some(1), Some(0), Some(0), Some(image1), Some(AppSwitch));
    assert Ids(db.buttons, ButtonId)[0] == 1;
    button2 := db.InsertButton(None, Some(1), Some(1), Some(0), Some(image2), Some(PageSwitch));
    assert Ids(db.buttons, ButtonId)[0] == 1 && Ids(db.buttons, ButtonId)[1] == 2;
    data1 := db.InsertFunctionalityData(None, Some(1), Some("Chrome"), None, None);
    assert Ids(db.data, DataId)[0] == 1;
    assert Ids(db.boards, BoardId) == [1];
    data2 := db.InsertFunctionalityData(None, Some(2), None, None, Some(2));
  }
}

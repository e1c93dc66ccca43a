# Button-board configuration store: the two schema drafts

octo-pancake configures a "button board", a grid of programmable buttons. Each button
has an image and an action: switch to an application, run a script, or switch to another
board (page). The repository holds two competing SQLAlchemy schema drafts for this
configuration store, both on SQLite. The drafts have no algorithmic code. Their behaviour is
the set of constraints they declare, and the database applies those constraints whenever a
row is inserted.

This project models each draft as an in-memory database. A database is a class holding one
sequence of rows per table. It has a constraint-checking insert method per table. An insert
either appends the row, when every declared constraint still holds, or returns the first
constraint it breaks and leaves every table unchanged. Each constraint is a pure predicate
over rows. A database's invariant (`Valid`) is the conjunction of those predicates.

- `sql.dfy` (module `Sql`) holds the SQLite semantics both drafts rely on:
  - nullable columns (`Option`) and CHECK's three-valued logic, where a NULL result passes;
  - `LIKE` with `%`, `_` and ASCII case folding, which is SQLite's default because the
    case-sensitive-LIKE pragma is commented out;
  - UNIQUE comparison, where NULL equals nothing;
  - foreign-key satisfaction, where a NULL key is satisfied;
  - rowid assignment for an `INTEGER PRIMARY KEY` left NULL: one more than the largest id,
    or 1 in an empty table.
- `models_a.dfy` (module `ModelsA`) models `modelsA.py`:
  - closed `LayoutType` and `ButtonFunctionalityType` enumerations, stored by name;
  - `unique_custom_layout` over `(layout_type, layout_width, layout_height)`;
  - `unique_button_position`;
  - the filename CHECK;
  - a one-to-one `functionality_data`;
  - foreign keys checked when the connection's `PRAGMA foreign_keys=ON` is in force. That
    pragma is the constant `Database.foreignKeys`.
- `models_b.dfy` (module `ModelsB`) models `modelsB.py`:
  - a free-text layout type with optional rows/columns and no board uniqueness;
  - the same button-position UNIQUE and filename CHECK;
  - a `functionality_type` lookup table whose `name` is UNIQUE;
  - `functionality_assignment` rows with no constraint beyond their key;
  - no foreign-key enforcement, because SQLite leaves it off unless a pragma turns it on.

Each table has a `...Violation` function that picks the first broken constraint. An
`...Admission` lemma proves the function sound and complete: it finds no violation exactly
when the table, with the row appended, satisfies the table's constraints. So "an insert that
would duplicate a position fails" and "an insert that succeeds keeps the invariant" are the
two directions of one lemma. The insert methods' postconditions tie the outcome and the new
tables to these functions. They also state that a refused insert leaves all tables as they
were.

Constraints are checked in SQLite's order: the CHECK, then the rowid, then UNIQUE indexes,
then foreign keys. `unique_custom_layout` is kept even though its own source comment calls it
"undesirable" (modelsA.py:29). It forbids two boards with the same non-NULL layout type, width
and height. A GRID_8x4 board, whose width and height are NULL, never collides
(`NullShapeNeverCollides`).

## Model

| member | source | states |
|---|---|---|
| `Sql.NoSlashCheckMeaning` | backend/octopancake/modelsA.py:50 | The CHECK `image_filename NOT LIKE '%/%'` lets a row through exactly when the filename is NULL or contains no `/`. A NULL passes because a CHECK that evaluates to NULL is not a failure. |
| `Sql.LikeSlashAnywhere` | backend/octopancake/modelsB.py:26 | Under SQLite's LIKE semantics, `s LIKE '%/%'` holds exactly when `s` contains a `/`. |
| `Sql.LikeSlashPrefix` | backend/octopancake/modelsA.py:50 | The pattern's tail `'/%'` matches exactly the strings that start with `/`. ASCII case folding never turns another character into `/`. |
| `Sql.LikePercentMatchesAll` | backend/octopancake/modelsA.py:50 | The `%` wildcard matches every string. |
| `Sql.NullNeverCollides` | backend/octopancake/modelsA.py:30-35 | A UNIQUE constraint never treats a NULL column as equal to another value, NULL included. |
| `Sql.DistinctAppend` | backend/octopancake/modelsA.py:19 | Appending a row keeps the primary key distinct exactly when the new id is not taken. |
| `Sql.PairwiseAppend` | backend/octopancake/modelsA.py:60 | Appending a row keeps a table-level UNIQUE constraint exactly when the row clashes with no existing row. |
| `Sql.MaxId` | backend/octopancake/modelsA.py:19 | The largest id of a non-empty table is one of its ids and bounds all of them. |
| `Sql.NextRowId` | backend/octopancake/modelsA.py:19 | A row inserted without an id gets exactly the largest existing id plus one (larger than every id, and one more than an id present), or 1 in an empty table, so it never clashes with the primary key. |
| `Sql.ResolveId` | backend/octopancake/modelsB.py:11 | An explicit id is kept. A NULL id becomes a fresh one. |
| `ModelsA.ParseLayoutType` | backend/octopancake/modelsA.py:12-14 | A stored `layout_type` reads back as an enum value exactly when it is `GRID_8x4` or `CUSTOM`, and the value's stored name is that string. |
| `ModelsA.LayoutTypeRoundTrip` | backend/octopancake/modelsA.py:21 | Every `LayoutType` value is stored under a name that reads back as that same value. |
| `ModelsA.ParseFunctionalityKind` | backend/octopancake/modelsA.py:38-41 | A stored `functionality_type` reads back exactly when it is `APP_SWITCH`, `RUN_SCRIPT` or `PAGE_SWITCH`. |
| `ModelsA.FunctionalityKindRoundTrip` | backend/octopancake/modelsA.py:52 | Every functionality kind is stored under a name that reads back as that same kind. |
| `ModelsA.BoardAdmission` | backend/octopancake/modelsA.py:29-35 | A board is refused exactly when its id is taken, or when its non-NULL `(layout_type, layout_width, layout_height)` equals another board's. Otherwise the board table stays consistent with the board appended. |
| `ModelsA.NullShapeNeverCollides` | backend/octopancake/modelsA.py:102 | A board with a NULL layout type, width or height, like the demo's GRID_8x4 board, is admitted under any free id however many such boards exist. |
| `ModelsA.ButtonAdmission` | backend/octopancake/modelsA.py:44-60 | A button is admitted exactly when four things hold: its filename passes the CHECK; its id is free; no button has the same non-NULL `(button_board_id, position_x, position_y)`; and, with foreign keys on, its board id is NULL or an existing board's. |
| `ModelsA.DataAdmission` | backend/octopancake/modelsA.py:63-70 | A functionality-data row is admitted exactly when three things hold: its id is free; no other row names the same button (one-to-one); and, with foreign keys on, its `button_config_id` and `target_board_id` are NULL or name existing rows. |
| `ModelsA.ReferencesGrow` | backend/octopancake/modelsA.py:47 | Appending boards, or buttons whose own reference resolves, never breaks a reference that already resolves. |
| `ModelsA.ButtonsOf` | backend/octopancake/modelsA.py:27 | A board's `buttons` collection holds exactly the button rows whose `button_board_id` is that board's id. |
| `ModelsA.ButtonsOfAppend` | backend/octopancake/modelsA.py:58 | Inserting a button extends only its own board's collection, by that button at the end. |
| `ModelsA.DataOf` | backend/octopancake/modelsA.py:53-56 | A button's `functionality_data` is a stored row naming that button, or absent only when no row names it. |
| `ModelsA.DataOfIsTheOnlyRow` | backend/octopancake/modelsA.py:54 | Under the one-to-one constraint, the row that names a button is the one its `functionality_data` yields. |
| `ModelsA.FindBoard` | backend/octopancake/modelsA.py:19 | A board id looks up a stored board with that id, or fails only when no board has it. |
| `ModelsA.TargetBoard` | backend/octopancake/modelsA.py:73 | `target_board` is the stored board whose id is the row's `target_board_id`. It is absent only when that id is NULL or names no board. |
| `ModelsA.TargetResolves` | backend/octopancake/modelsA.py:79-83 | With foreign keys on, every non-NULL `target_board_id` in a consistent database resolves to a board. |
| `ModelsA.Database.constructor` | backend/octopancake/modelsA.py:97 | The tables start empty and consistent, and foreign keys are enforced as the connection flag says. |
| `ModelsA.Database.InsertBoard` | backend/octopancake/modelsA.py:17-35 | Appends the board under its resolved id when no constraint is broken. Otherwise it returns the violation and changes nothing. The invariant is kept and other tables are untouched. |
| `ModelsA.Database.InsertButton` | backend/octopancake/modelsA.py:44-60 | Same, for a button, against the CHECK, the key, the position and, with foreign keys on, the board reference. |
| `ModelsA.Database.InsertFunctionalityData` | backend/octopancake/modelsA.py:63-73 | Same, for a functionality-data row, against the key, the one-to-one rule and, with foreign keys on, the button and target-board references. |
| `ModelsA.Demo` | backend/octopancake/modelsA.py:102-120 | The demo's board, both buttons and the app-switch data row are inserted under ids 1, 1, 2 and 1. The page-switch row whose target is board 2 is refused with a foreign-key violation. |
| `ModelsB.BoardAdmission` | backend/octopancake/modelsB.py:8-17 | A board is refused only when its explicit id is taken. Any layout type string, rows and columns are accepted. |
| `ModelsB.ButtonAdmission` | backend/octopancake/modelsB.py:19-31 | A button is admitted exactly when three things hold: its filename passes the CHECK; its id is free; and no button has the same non-NULL `(button_board_id, position_x, position_y)`. No board is looked up. |
| `ModelsB.NullBoardIdAdmitted` | backend/octopancake/modelsB.py:62-67 | A button with a NULL board id, as in the module body, is admitted whenever its filename has no `/` and its id is free. |
| `ModelsB.TypeAdmission` | backend/octopancake/modelsB.py:33-37 | A functionality type is admitted exactly when its id is free and no row has the same non-NULL `name`. |
| `ModelsB.NewTypeNameAdmitted` | backend/octopancake/modelsB.py:70 | The set of kinds is open: a name not yet stored is always admitted under the next rowid. |
| `ModelsB.TypeNamed` | backend/octopancake/modelsB.py:36-37 | Looking a name up yields a stored row with that name. It yields nothing only when the name is not stored. |
| `ModelsB.TypeNamedIsTheOnlyRow` | backend/octopancake/modelsB.py:37 | With `name` unique, every stored name picks out exactly its own row. |
| `ModelsB.AssignmentAdmission` | backend/octopancake/modelsB.py:39-47 | An assignment is refused only when its id is taken. Its button, type and target board are neither unique nor looked up. |
| `ModelsB.SeveralAssignmentsPerButton` | backend/octopancake/modelsB.py:43 | Two assignments for the same button are both admitted, one after the other. |
| `ModelsB.Database.constructor` | backend/octopancake/modelsB.py:50-51 | The tables start empty and consistent. |
| `ModelsB.Database.InsertBoard` | backend/octopancake/modelsB.py:59-60 | Refuses exactly when the explicit id is taken. Otherwise it appends the board under its resolved id. The invariant is kept and other tables are untouched. |
| `ModelsB.Database.InsertButton` | backend/octopancake/modelsB.py:62-67 | Appends the button when the CHECK, the key and the position allow it. Otherwise it returns the violation and changes nothing. |
| `ModelsB.Database.InsertFunctionalityType` | backend/octopancake/modelsB.py:70-71 | Appends the type row when its id and name are free, and always succeeds for a new name under a NULL id. Otherwise it changes nothing. |
| `ModelsB.Database.InsertAssignment` | backend/octopancake/modelsB.py:73-78 | Refuses exactly when the explicit id is taken. Otherwise it appends the assignment. |
| `ModelsB.Demo` | backend/octopancake/modelsB.py:58-79 | On an empty database, the module body's board, button (NULL board id), type and assignment (NULL references) are all inserted, each under id 1. |

## Left out

- Engine creation, the sqlite file, sessions and `commit`/`refresh`. Each model insert is
  one INSERT statement on its own. A commit that fails and rolls back its whole flush is not
  modelled. The demo of modelsA.py therefore shows the refused insert, not the rollback of
  the rows before it.
- The `connect` event listeners. Draft A's `PRAGMA foreign_keys=ON` is the boolean
  `Database.foreignKeys`. The commented-out WAL and case-sensitive-LIKE pragmas are inactive,
  so LIKE keeps SQLite's default ASCII case folding.
- The demo's `print` output and the commented tables, which are illustration only.
- SQLAlchemy relationship loading and `back_populates` synchronisation. `ButtonsOf`,
  `DataOf` and `TargetBoard` are the collections and attributes those relationships read.
  In draft A, `uselist=False` is enforced by the ORM, not by a database index. It is modelled
  as an insert refusal (`OneToOne`) rather than as the ORM's replace-on-assign.
- Deletes, updates, resizing and cascades. Neither draft performs them.
- Grid bounds checks, refusing a page switch to its own board, and per-kind required or
  forbidden fields. Neither draft declares them.
- 64-bit integers. Ids and coordinates are unbounded. SQLite's random rowid choice, once
  the largest rowid is in use, is not modelled.
- Column type affinity. Integer columns hold integers and string columns hold strings.
- The Python values of the enumerations (`"8x4_grid"`, `"app_switch"`, ...). SQLAlchemy
  stores the member names, and those are what is modelled.
- ModelsA.Demo: the image filenames are parameters constrained to contain no `/`, rather
  than the literals `button1.png` and `button2.png`.
- ModelsB.Demo: the image filename is a parameter constrained to contain no `/`, rather
  than the literal `button_image.png`.

/** The parts of SQL, as SQLite implements them, that the two schema drafts rely on:
    nullable columns, three-valued CHECK expressions, the LIKE operator, UNIQUE
    comparisons in which NULL equals nothing, implicit rowid assignment for an
    INTEGER PRIMARY KEY, and foreign-key references. */
module Sql {

  /** A nullable column value: None is SQL NULL. */
  datatype Option<+T> = None | Some(value: T)

  /** The result of an insert: the row id it received, or the constraint that refused it. */
  datatype Outcome<+V> = Inserted(id: int) | Rejected(violation: V)

  /** SQL's three truth values; CHECK constraints evaluate to one of them. */
  datatype SqlBool = SqlTrue | SqlFalse | SqlNull

  function Not(b: SqlBool): SqlBool
  {
    match b
    case SqlTrue => SqlFalse
    case SqlFalse => SqlTrue
    case SqlNull => SqlNull
  }

  /** A CHECK constraint refuses a row only when its expression is false; NULL passes. */
  predicate CheckPasses(b: SqlBool)
  {
    b != SqlFalse
  }

  /** SQLite folds only the ASCII letters when LIKE compares characters. */
  function AsciiLower(c: char): char
  {
    if 'A' <= c <= 'Z' then (c as int + 32) as char else c
  }

  /** `s LIKE p` for non-NULL operands: `%` matches any run of characters, `_` any
      one character, and other characters match case-insensitively (ASCII only). */
  function Like(s: string, p: string): bool
    decreases |s| + |p|
  {
    if p == [] then s == []
    else if p[0] == '%' then Like(s, p[1..]) || (s != [] && Like(s[1..], p))
    else s != [] && (p[0] == '_' || AsciiLower(s[0]) == AsciiLower(p[0])) && Like(s[1..], p[1..])
  }

  /** `s LIKE p` on a nullable operand: NULL LIKE anything is NULL. */
  function LikeValue(s: Option<string>, p: string): SqlBool
  {
    if s.None? then SqlNull else if Like(s.value, p) then SqlTrue else SqlFalse
  }

  /** The column CHECK `image_filename NOT LIKE '%/%'` shared by both drafts. */
  predicate NoSlashCheck(filename: Option<string>)
  {
    CheckPasses(Not(LikeValue(filename, "%/%")))
  }

  lemma {:induction false} LikePercentMatchesAll(s: string)
    ensures Like(s, "%")
    decreases |s|
  {
    assert "%"[1..] == [];
    if s != [] {
      LikePercentMatchesAll(s[1..]);
    }
  }

  lemma SlashFoldsOnlyToSlash(c: char)
    ensures AsciiLower(c) == AsciiLower('/') <==> c == '/'
  {
  }

  /** `s LIKE '/%'` holds exactly when `s` starts with a slash. */
  lemma LikeSlashPrefix(s: string)
    ensures Like(s, "/%") <==> s != [] && s[0] == '/'
  {
    assert "/%"[0] == '/' && "/%"[1..] == "%";
    if s != [] {
      LikePercentMatchesAll(s[1..]);
      SlashFoldsOnlyToSlash(s[0]);
    }
  }

  /** The pattern of the filename CHECK: `s LIKE '%/%'` holds exactly when `s` contains a slash. */
  lemma {:induction false} LikeSlashAnywhere(s: string)
    ensures Like(s, "%/%") <==> '/' in s
    decreases |s|
  {
    assert "%/%"[0] == '%' && "%/%"[1..] == "/%";
    LikeSlashPrefix(s);
    if s != [] {
      LikeSlashAnywhere(s[1..]);
      assert s == [s[0]] + s[1..];
    }
  }

  /** The filename CHECK lets a row through exactly when the filename is NULL or holds no `/`. */
  lemma NoSlashCheckMeaning(filename: Option<string>)
    ensures NoSlashCheck(filename) <==> filename.None? || '/' !in filename.value
  {
    if filename.Some? {
      LikeSlashAnywhere(filename.value);
    }
  }

  /** Column equality as a UNIQUE constraint applies it: NULL is distinct from every
      value, NULL itself included. */
  predicate SameKey<T(==)>(a: Option<T>, b: Option<T>)
  {
    a.Some? && b.Some? && a.value == b.value
  }

  lemma NullNeverCollides<T>(a: Option<T>, b: Option<T>)
    requires a.None? || b.None?
    ensures !SameKey(a, b)
  {
  }

  /** A foreign-key column is satisfied by NULL or by the id of an existing parent row. */
  predicate References(parentIds: seq<int>, key: Option<int>)
  {
    key.None? || key.value in parentIds
  }

  /** The primary-key column of a table, in row order. */
  function Ids<T>(rows: seq<T>, id: T -> int): (ids: seq<int>)
    ensures |ids| == |rows|
    ensures forall i :: 0 <= i < |rows| ==> ids[i] == id(rows[i])
  {
    seq(|rows|, i requires 0 <= i < |rows| => id(rows[i]))
  }

  /** No id appears twice: the PRIMARY KEY of a table. */
  predicate Distinct(ids: seq<int>)
  {
    forall i, j :: 0 <= i < j < |ids| ==> ids[i] != ids[j]
  }

  lemma DistinctAppend(ids: seq<int>, x: int)
    requires Distinct(ids)
    ensures Distinct(ids + [x]) <==> x !in ids
  {
    if x in ids {
      var i :| 0 <= i < |ids| && ids[i] == x;
      assert (ids + [x])[i] == (ids + [x])[|ids|];
    }
  }

  /** No two rows, taken in table order, clash: a table-level UNIQUE constraint. */
  predicate Pairwise<T>(rows: seq<T>, clash: (T, T) -> bool)
  {
    forall i, j :: 0 <= i < j < |rows| ==> !clash(rows[i], rows[j])
  }

  /** Appending a row keeps a UNIQUE constraint exactly when the row clashes with no existing row. */
  lemma PairwiseAppend<T>(rows: seq<T>, row: T, clash: (T, T) -> bool)
    requires Pairwise(rows, clash)
    ensures Pairwise(rows + [row], clash) <==> forall i :: 0 <= i < |rows| ==> !clash(rows[i], row)
  {
    var all := rows + [row];
    if forall i :: 0 <= i < |rows| ==> !clash(rows[i], row) {
      forall i, j | 0 <= i < j < |all| ensures !clash(all[i], all[j]) {
        if j < |rows| {
          assert all[i] == rows[i] && all[j] == rows[j];
        } else {
          assert all[i] == rows[i] && all[j] == row;
        }
      }
    } else {
      var i :| 0 <= i < |rows| && clash(rows[i], row);
      assert all[i] == rows[i] && all[|rows|] == row;
    }
  }

  /** The largest id of a non-empty table. */
  function MaxId(ids: seq<int>): (m: int)
    requires ids != []
    ensures m in ids
    ensures forall i :: 0 <= i < |ids| ==> ids[i] <= m
  {
    if |ids| == 1 then ids[0]
    else
      var rest := MaxId(ids[1..]);
      if ids[0] >= rest then ids[0] else rest
  }

  /** The rowid SQLite gives a row inserted with a NULL INTEGER PRIMARY KEY: one more
      than the largest id in the table, or 1 in an empty table. */
  function NextRowId(ids: seq<int>): (r: int)
    ensures r !in ids
    ensures forall i :: 0 <= i < |ids| ==> ids[i] < r
    ensures ids == [] ==> r == 1
    ensures ids != [] ==> r - 1 in ids
  {
    if ids == [] then 1 else MaxId(ids) + 1
  }

  /** The id a new row receives: the one the caller supplied, or the next rowid. */
  function ResolveId(ids: seq<int>, requested: Option<int>): (id: int)
    ensures requested.Some? ==> id == requested.value
    ensures requested.None? ==> id !in ids
  {
    if requested.Some? then requested.value else NextRowId(ids)
  }
}

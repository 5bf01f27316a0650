/** Which attempts of a task decide it (endpoints.py, _select_decision_rows). */
module Draws {
  import opened Endpoints
  import opened Json
  import opened Sequences

  datatype Reason =
    | BadIndex | DuplicateIndex | NoDeclaration | DeclarationOutOfBounds | Incomplete | CollectionContinued

  /** The rows that decide, what is wrong with the record of attempts, and every violation of
      the protocol. */
  datatype Selection = Selection(selected: seq<Row>, integrity: seq<Reason>, reasons: seq<Reason>)

  function Attempt(row: Row): int { if row.attempt.Int? then row.attempt.n else 0 }

  predicate HasBadIndex(cell: seq<Row>) { exists row :: row in cell && !row.attempt.Int? }

  /** Fewer distinct integers than rows. A truth value is an integer to the code here. */
  predicate HasDuplicate(cell: seq<Row>) {
    || (exists row :: row in cell && !row.attempt.Int? && !row.attempt.Bool?)
    || (exists i, j :: 0 <= i < j < |cell| && IntValue(cell[i].attempt) == IntValue(cell[j].attempt))
  }

  function IntValue(v: Json): Option<int> {
    match v
    case Int(n) => Some(n)
    case Bool(b) => Some(if b then 1 else 0)
    case _ => None
  }

  function Range(n: int): (r: seq<int>)
    ensures |r| == (if n < 0 then 0 else n) && forall i :: 0 <= i < |r| ==> r[i] == i
  {
    if n <= 0 then [] else Range(n - 1) + [n - 1]
  }

  // --------------------------------------------------------------------- sorting

  /** Before the first row whose attempt is not smaller: a stable insertion. */
  function InsertRow(row: Row, rows: seq<Row>): seq<Row>
    decreases |rows|
  {
    if rows == [] || Attempt(row) <= Attempt(rows[0]) then [row] + rows
    else [rows[0]] + InsertRow(row, rows[1..])
  }

  function SortByAttempt(cell: seq<Row>): seq<Row> {
    if cell == [] then [] else InsertRow(cell[0], SortByAttempt(cell[1..]))
  }

  predicate Ascending(rows: seq<Row>) {
    forall i, j :: 0 <= i < j < |rows| ==> Attempt(rows[i]) <= Attempt(rows[j])
  }

  lemma {:induction false} InsertRowKeeps(row: Row, rows: seq<Row>)
    ensures multiset(InsertRow(row, rows)) == multiset([row]) + multiset(rows)
    decreases |rows|
  {
    if rows != [] {
      InsertRowKeeps(row, rows[1..]);
      assert rows == [rows[0]] + rows[1..];
    }
  }

  lemma {:induction false} InsertRowAscends(row: Row, rows: seq<Row>)
    requires Ascending(rows)
    ensures Ascending(InsertRow(row, rows))
    decreases |rows|
  {
    if rows != [] && Attempt(row) > Attempt(rows[0]) {
      var tail := InsertRow(row, rows[1..]);
      InsertRowAscends(row, rows[1..]);
      forall x | x in tail ensures Attempt(rows[0]) <= Attempt(x) {
        InsertRowKeeps(row, rows[1..]);
        assert x in multiset(tail);
      }
    }
  }

  lemma {:induction false} SortHolds(cell: seq<Row>)
    ensures Ascending(SortByAttempt(cell)) && multiset(SortByAttempt(cell)) == multiset(cell)
  {
    if cell != [] {
      SortHolds(cell[1..]);
      InsertRowKeeps(cell[0], SortByAttempt(cell[1..]));
      InsertRowAscends(cell[0], SortByAttempt(cell[1..]));
      assert cell == [cell[0]] + cell[1..];
    }
  }

  // -------------------------------------------------------------------- selecting

  /** Rows in attempt order; none when some attempt is no integer. */
  function Ordered(cell: seq<Row>): seq<Row> { if HasBadIndex(cell) then [] else SortByAttempt(cell) }

  function Attempts(rows: seq<Row>): seq<int> { Map(Attempt, rows) }

  function Integrity(cell: seq<Row>, declared: Json): seq<Reason> {
    (if HasBadIndex(cell) then [BadIndex] else [])
    + (if HasDuplicate(cell) then [DuplicateIndex] else [])
    + (if !declared.Int? then [NoDeclaration]
       else if !(0 <= declared.n <= MAX_ATTEMPTS_PER_TASK_CONDITION) then [DeclarationOutOfBounds] else [])
    + (if declared.Int? && Attempts(Ordered(cell)) != Range(declared.n) then [Incomplete] else [])
  }

  function FirstOf<T>(s: seq<T>, n: nat): (r: seq<T>)
    ensures |r| == if |s| < n then |s| else n
  {
    if |s| <= n then s else s[..n]
  }

  function CountedRows(rows: seq<Row>): seq<Row> { Filter(Counted, rows) }

  /** Some considered attempt came after the third counted one. */
  predicate Continued(window: seq<Row>, selected: seq<Row>) {
    |selected| == VALID_DRAWS_PER_TASK_CONDITION
    && exists row :: row in window && Attempt(row) > Attempt(selected[|selected| - 1])
  }

  function SelectDecisionRows(cell: seq<Row>, declared: Json): Selection {
    var integrity := Integrity(cell, declared);
    var window := FirstOf(Ordered(cell), MAX_ATTEMPTS_PER_TASK_CONDITION);
    var selected := FirstOf(CountedRows(window), VALID_DRAWS_PER_TASK_CONDITION);
    Selection(if integrity != [] then [] else selected, integrity,
              integrity + if Continued(window, selected) then [CollectionContinued] else [])
  }

  // ------------------------------------------------------------------ what it means

  /** Attempts 0, 1, 2, … in order. */
  predicate Numbered(rows: seq<Row>) {
    forall i :: 0 <= i < |rows| ==> rows[i].attempt == Int(i)
  }

  /** The record is complete exactly when some order of its rows carries the attempts
      0 .. declared - 1, within the bound; and then that order is the one considered. */
  lemma CompleteRecord(cell: seq<Row>, declared: Json)
    ensures Integrity(cell, declared) == [] <==>
            (declared.Int? && 0 <= declared.n <= 5
             && Numbered(SortByAttempt(cell)) && |cell| == declared.n)
    ensures Integrity(cell, declared) == [] ==> Ordered(cell) == SortByAttempt(cell)
  {
    SortHolds(cell);
    PermutationFacts(SortByAttempt(cell), cell);
    if Integrity(cell, declared) == [] {
      RangeIsNumbered(SortByAttempt(cell), declared.n);
    }
    if Numbered(SortByAttempt(cell)) {
      NumberedIsClean(cell);
      if declared.Int? && |cell| == declared.n { NumberedIsRange(SortByAttempt(cell)); }
    }
  }

  lemma RangeIsNumbered(rows: seq<Row>, n: int)
    requires Attempts(rows) == Range(n) && forall row :: row in rows ==> row.attempt.Int?
    ensures Numbered(rows) && |rows| == |Range(n)|
  {
    forall i | 0 <= i < |rows| ensures rows[i].attempt == Int(i) {
      assert rows[i] in rows && Attempts(rows)[i] == Attempt(rows[i]);
    }
  }

  lemma NumberedIsRange(rows: seq<Row>)
    requires Numbered(rows)
    ensures Attempts(rows) == Range(|rows|)
  {}

  lemma NumberedIsClean(cell: seq<Row>)
    requires Numbered(SortByAttempt(cell))
    ensures !HasBadIndex(cell) && !HasDuplicate(cell)
  {
    SortHolds(cell);
    var sorted := SortByAttempt(cell);
    PermutationFacts(sorted, cell);
    forall row | row in cell ensures row.attempt.Int? {
      assert row in sorted;
    }
    forall i, j | 0 <= i < j < |cell| ensures IntValue(cell[i].attempt) != IntValue(cell[j].attempt) {
      if cell[i].attempt == cell[j].attempt {
        OneOfEach(sorted, cell[i], cell[j]);
        TwoCopies(cell, i, j);
      }
    }
  }

  /** Numbered rows with the same attempt are the same row, and it occurs once. */
  lemma OneOfEach(rows: seq<Row>, a: Row, b: Row)
    requires Numbered(rows) && a in rows && b in rows && a.attempt == b.attempt
    ensures a == b && multiset(rows)[a] == 1
  {
    var i :| 0 <= i < |rows| && rows[i] == a;
    assert rows == rows[..i] + [a] + rows[i + 1..];
    assert a !in rows[..i] && a !in rows[i + 1..];
  }

  lemma TwoCopies<T>(s: seq<T>, i: nat, j: nat)
    requires i < j < |s| && s[i] == s[j]
    ensures multiset(s)[s[i]] >= 2
  {
    assert s == s[..j] + [s[j]] + s[j + 1..];
    assert s[i] in s[..j];
  }

  /** Sorting finds the numbered order. */
  lemma {:induction false} NumberedIsSorted(rows: seq<Row>, cell: seq<Row>)
    requires Numbered(rows) && multiset(rows) == multiset(cell)
    ensures SortByAttempt(cell) == rows
  {
    SortHolds(cell);
    forall i, j | 0 <= i < j < |rows| ensures Attempt(rows[i]) < Attempt(rows[j]) {}
    SortedUnique(SortByAttempt(cell), rows);
  }

  lemma {:induction false} SortedUnique(a: seq<Row>, b: seq<Row>)
    requires multiset(a) == multiset(b) && Ascending(a)
    requires forall i, j :: 0 <= i < j < |b| ==> Attempt(b[i]) < Attempt(b[j])
    ensures a == b
  {
    PermutationFacts(a, b);
    if a != [] {
      assert a[0] in b && b[0] in a;
      assert a[0] == b[0];
      SameTails(a, b);
      SortedUnique(a[1..], b[1..]);
    }
  }

  /** From a complete record of numbered rows, in any order, the first three counted ones are
      selected; the only violation there can be is collecting on after the third. */
  lemma SelectsFirstThree(rows: seq<Row>, cell: seq<Row>)
    requires Numbered(rows) && |rows| <= 5 && multiset(rows) == multiset(cell)
    ensures var s, counted := SelectDecisionRows(cell, Int(|rows|)), CountedRows(rows);
            && s.integrity == []
            && s.selected == (if |counted| <= 3 then counted else counted[..3])
            && (s.reasons == [] <==> (|counted| >= 3 ==> counted[2] == rows[|rows| - 1]))
            && (s.reasons == [] || s.reasons == [CollectionContinued])
  {
    NumberedIsSorted(rows, cell);
    PermutationFacts(rows, cell);
    CompleteRecord(cell, Int(|rows|));
    if |CountedRows(rows)| >= 3 { ContinuedExactly(rows, FirstOf(CountedRows(rows), 3)); }
  }

  /** Collection went on exactly when the third counted row is not the last of all. */
  lemma ContinuedExactly(rows: seq<Row>, selected: seq<Row>)
    requires Numbered(rows) && |selected| == 3 && forall row :: row in selected ==> row in CountedRows(rows)
    ensures rows != [] && (Continued(rows, selected) <==> selected[2] != rows[|rows| - 1])
  {
    var third := selected[2];
    assert third in selected;
    FilterMembers(Counted, rows, third);
    var i :| 0 <= i < |rows| && rows[i] == third;
    var last := rows[|rows| - 1];
    assert last in rows && last.attempt == Int(|rows| - 1) && third.attempt == Int(i);
    forall row | row in rows ensures Attempt(row) <= |rows| - 1 {}
  }

  /** Which reasons the record of attempts itself gives: an attempt that is no integer; two equal
      attempts, a truth value counting as 0 or 1, or one that is neither; no declared count, or
      one that is negative or above five. */
  lemma ReasonsExactly(cell: seq<Row>, declared: Json)
    ensures BadIndex in Integrity(cell, declared) <==> exists i :: 0 <= i < |cell| && !cell[i].attempt.Int?
    ensures DuplicateIndex in Integrity(cell, declared) <==>
              || (exists i :: 0 <= i < |cell| && !cell[i].attempt.Int? && !cell[i].attempt.Bool?)
              || (exists i, j :: 0 <= i < j < |cell| && SameIndex(cell[i].attempt, cell[j].attempt))
    ensures NoDeclaration in Integrity(cell, declared) <==> !declared.Int?
    ensures DeclarationOutOfBounds in Integrity(cell, declared) <==> declared.Int? && (declared.n < 0 || declared.n > 5)
  {
    forall row | row in cell && !row.attempt.Int? ensures exists i :: 0 <= i < |cell| && !cell[i].attempt.Int? {
      var i :| 0 <= i < |cell| && cell[i] == row;
      assert !cell[i].attempt.Int?;
    }
    forall i | 0 <= i < |cell| && !cell[i].attempt.Int? ensures HasBadIndex(cell) { assert cell[i] in cell; }
    DuplicateExactly(cell);
  }

  /** Equal to the code: an integer and a truth value are compared as numbers. */
  predicate SameIndex(a: Json, b: Json) {
    || (a.Int? && b.Int? && a.n == b.n)
    || (a.Bool? && b.Bool? && a.b == b.b)
    || (a.Int? && b.Bool? && a.n == if b.b then 1 else 0)
    || (a.Bool? && b.Int? && b.n == if a.b then 1 else 0)
  }

  lemma DuplicateExactly(cell: seq<Row>)
    ensures HasDuplicate(cell) <==>
              || (exists i :: 0 <= i < |cell| && !cell[i].attempt.Int? && !cell[i].attempt.Bool?)
              || (exists i, j :: 0 <= i < j < |cell| && SameIndex(cell[i].attempt, cell[j].attempt))
  {
    if row :| row in cell && !row.attempt.Int? && !row.attempt.Bool? {
      var i :| 0 <= i < |cell| && cell[i] == row;
      assert !cell[i].attempt.Int? && !cell[i].attempt.Bool?;
    }
    forall i | 0 <= i < |cell| && !cell[i].attempt.Int? && !cell[i].attempt.Bool? ensures HasDuplicate(cell) {
      assert cell[i] in cell;
    }
    if !(exists row :: row in cell && !row.attempt.Int? && !row.attempt.Bool?) {
      forall i, j | 0 <= i < j < |cell|
        ensures IntValue(cell[i].attempt) == IntValue(cell[j].attempt) <==> SameIndex(cell[i].attempt, cell[j].attempt)
      {
        assert cell[i] in cell && cell[j] in cell;
      }
    }
  }

  // --------------------------------------------------------------- order and extras

  /** The decision does not depend on the order of the rows: same selection, same verdict on
      the protocol. */
  lemma OrderDoesNotMatter(a: seq<Row>, b: seq<Row>, declared: Json)
    requires multiset(a) == multiset(b)
    ensures SelectDecisionRows(a, declared).selected == SelectDecisionRows(b, declared).selected
    ensures (SelectDecisionRows(a, declared).reasons == []) == (SelectDecisionRows(b, declared).reasons == [])
    ensures (Integrity(a, declared) == []) == (Integrity(b, declared) == [])
  {
    CompleteRecord(a, declared);
    CompleteRecord(b, declared);
    PermutationFacts(a, b);
    SortHolds(a);
    SortHolds(b);
    if Integrity(a, declared) == [] {
      NumberedIsSorted(SortByAttempt(a), b);
    } else if Integrity(b, declared) == [] {
      NumberedIsSorted(SortByAttempt(b), a);
    }
  }

  /** Attempts collected after the third counted one are a violation, and change nothing in
      what was selected. */
  lemma ExtraDrawsNeverDecide(rows: seq<Row>, extra: seq<Row>)
    requires Numbered(rows + extra) && extra != [] && |rows + extra| <= 5
    requires |CountedRows(rows)| >= 3
    ensures SelectDecisionRows(rows + extra, Int(|rows + extra|)).selected
         == SelectDecisionRows(rows, Int(|rows|)).selected
    ensures SelectDecisionRows(rows + extra, Int(|rows + extra|)).reasons == [CollectionContinued]
    ensures SelectDecisionRows(rows, Int(|rows|)).integrity == []
  {
    var all := rows + extra;
    EarlierRows(rows, extra);
    SelectsFirstThree(rows, rows);
    SelectsFirstThree(all, all);
  }

  lemma EarlierRows(rows: seq<Row>, extra: seq<Row>)
    requires Numbered(rows + extra) && extra != [] && |CountedRows(rows)| >= 3
    ensures var all := rows + extra;
            && Numbered(rows) && CountedRows(rows) <= CountedRows(all)
            && CountedRows(all)[..3] == CountedRows(rows)[..3]
            && CountedRows(all)[2] != all[|all| - 1]
  {
    var all, third := rows + extra, CountedRows(rows)[2];
    assert forall i :: 0 <= i < |rows| ==> rows[i] == all[i];
    FilterConcat(Counted, rows, extra);
    FilterMembers(Counted, rows, third);
    var i :| 0 <= i < |rows| && rows[i] == third;
    assert all[i] == third;
  }
}

/** Sums over listed rows, and lists of rows that name each identifier once. */
module Folds {

  import opened Wrappers

  function Fold<A, T>(step: (A, T) -> A, start: A, rows: seq<T>): A {
    if rows == [] then start
    else step(Fold(step, start, rows[..|rows| - 1]), rows[|rows| - 1])
  }

  ghost predicate Commutes<A(!new), T(!new)>(step: (A, T) -> A) {
    forall a, x, y :: step(step(a, x), y) == step(step(a, y), x)
  }

  lemma {:induction false} FoldMoves<A(!new), T(!new)>(step: (A, T) -> A, start: A, rows: seq<T>, i: nat)
    requires Commutes(step) && i < |rows|
    ensures Fold(step, start, rows) == step(Fold(step, start, rows[..i] + rows[i + 1..]), rows[i])
  {
    var n := |rows| - 1;
    var rest, less := rows[..i] + rows[i + 1..], rows[..n];
    if i == n {
      assert rest == less;
    } else {
      FoldMoves(step, start, less, i);
      assert rest[..n - 1] == less[..i] + less[i + 1..] && rest[n - 1] == rows[n] && less[i] == rows[i];
    }
  }

  /** A sum of commuting steps does not depend on the order of its rows. */
  lemma {:induction false} FoldIgnoresOrder<A(!new), T(!new)>(step: (A, T) -> A, start: A, a: seq<T>, b: seq<T>)
    requires Commutes(step) && multiset(a) == multiset(b)
    ensures Fold(step, start, a) == Fold(step, start, b)
  {
    if a == [] {
      assert |multiset(b)| == 0;
    } else {
      var n := |a| - 1;
      assert a == a[..n] + [a[n]];
      assert a[n] in multiset(b);
      var i :| 0 <= i < |b| && b[i] == a[n];
      assert b == b[..i] + [b[i]] + b[i + 1..];
      assert multiset(a) == multiset(a[..n]) + multiset{a[n]};
      assert multiset(b) == multiset(b[..i] + b[i + 1..]) + multiset{b[i]};
      assert multiset(a[..n]) == multiset(a) - multiset{a[n]};
      FoldIgnoresOrder(step, start, a[..n], b[..i] + b[i + 1..]);
      FoldMoves(step, start, b, i);
    }
  }

  /** The plain sum of a figure of each row. */
  ghost function SumOf<T>(rows: seq<T>, figure: T -> real): real {
    if rows == [] then 0.0 else figure(rows[0]) + SumOf(rows[1..], figure)
  }

  lemma {:induction false} SumOfLast<T>(rows: seq<T>, figure: T -> real)
    requires rows != []
    ensures SumOf(rows, figure) == SumOf(rows[..|rows| - 1], figure) + figure(rows[|rows| - 1])
  {
    var n := |rows| - 1;
    if n == 0 {
      assert rows[..0] == [] && rows[1..] == [];
    } else {
      assert rows[1..][..n - 1] == rows[..n][1..];
      SumOfLast(rows[1..], figure);
    }
  }

  ghost predicate NoRepeats<T>(rows: seq<T>) {
    forall i, j :: 0 <= i < j < |rows| ==> rows[i] != rows[j]
  }

  ghost predicate SameMembers<T(!new)>(a: seq<T>, b: seq<T>) {
    forall x :: x in a <==> x in b
  }

  lemma {:induction false} CountsOnce<T>(rows: seq<T>, x: T)
    requires NoRepeats(rows)
    ensures multiset(rows)[x] == if x in rows then 1 else 0
  {
    if rows == [] {
    } else {
      var n := |rows| - 1;
      assert rows == rows[..n] + [rows[n]];
      CountsOnce(rows[..n], x);
    }
  }

  lemma SameMembersSameCounts<T(!new)>(a: seq<T>, b: seq<T>)
    requires NoRepeats(a) && NoRepeats(b) && SameMembers(a, b)
    ensures multiset(a) == multiset(b)
  {
    forall x ensures multiset(a)[x] == multiset(b)[x] {
      CountsOnce(a, x);
      CountsOnce(b, x);
    }
  }

  // ------------------------------------------------- each identifier once

  /** The listed rows with one more, unless it contradicts the row that has its identifier. */
  function Joined<T(==)>(listed: seq<T>, row: T, id: T -> string): Option<seq<T>> {
    if exists i :: 0 <= i < |listed| && id(listed[i]) == id(row) && listed[i] != row then None
    else if row in listed then Some(listed)
    else Some(listed + [row])
  }

  /** The distinct rows, or nothing when an identifier is repeated with other content. */
  function Collected<T(==)>(rows: seq<T>, id: T -> string): Option<seq<T>> {
    if rows == [] then Some([])
    else
      var before := Collected(rows[..|rows| - 1], id);
      if before == None then None else Joined(before.value, rows[|rows| - 1], id)
  }

  /** Rows with one identifier are equal. */
  ghost predicate Agree<T(!new)>(rows: seq<T>, id: T -> string) {
    forall a, b :: a in rows && b in rows && id(a) == id(b) ==> a == b
  }

  ghost predicate ListsOnce<T(!new)>(listed: seq<T>, rows: seq<T>, id: T -> string) {
    SameMembers(listed, rows) && forall i, j :: 0 <= i < j < |listed| ==> id(listed[i]) != id(listed[j])
  }

  /** Rows are collected exactly when they agree, each identifier once. */
  lemma {:induction false} CollectedIffAgree<T(!new)>(rows: seq<T>, id: T -> string)
    ensures Collected(rows, id).Some? <==> Agree(rows, id)
    ensures Collected(rows, id).Some? ==> ListsOnce(Collected(rows, id).value, rows, id)
  {
    if rows != [] {
      var n := |rows| - 1;
      var before := rows[..n];
      assert rows == before + [rows[n]];
      CollectedIffAgree(before, id);
      if Collected(before, id).Some? {
        JoinedLists(Collected(before, id).value, before, rows[n], id);
      } else {
        assert !Agree(rows, id) by { assert forall a :: a in before ==> a in rows; }
      }
    }
  }

  lemma JoinedLists<T(!new)>(listed: seq<T>, before: seq<T>, row: T, id: T -> string)
    requires ListsOnce(listed, before, id) && Agree(before, id)
    ensures Joined(listed, row, id).Some? <==> Agree(before + [row], id)
    ensures Joined(listed, row, id).Some? ==> ListsOnce(Joined(listed, row, id).value, before + [row], id)
  {
    assert forall x :: x in before + [row] <==> x in before || x == row;
    if i :| 0 <= i < |listed| && id(listed[i]) == id(row) && listed[i] != row {
      assert listed[i] in listed;
    }
  }

  lemma {:induction false} CollectedStays<T>(rows: seq<T>, n: nat, id: T -> string)
    requires n <= |rows| && Collected(rows[..n], id) == None
    ensures Collected(rows, id) == None
  {
    if n == |rows| {
      assert rows[..n] == rows;
    } else {
      var less := rows[..|rows| - 1];
      assert less[..n] == rows[..n];
      CollectedStays(less, n, id);
    }
  }

  /** Rows that hold the same, repeated or not and in any order, are collected alike. */
  lemma CollectedAlike<T(!new)>(a: seq<T>, b: seq<T>, id: T -> string)
    requires SameMembers(a, b)
    ensures Collected(a, id).Some? <==> Collected(b, id).Some?
    ensures Collected(a, id).Some? ==> multiset(Collected(a, id).value) == multiset(Collected(b, id).value)
  {
    CollectedIffAgree(a, id);
    CollectedIffAgree(b, id);
    if Collected(a, id).Some? { SameMembersSameCounts(Collected(a, id).value, Collected(b, id).value); }
  }
}

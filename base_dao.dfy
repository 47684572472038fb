/** `BaseDAO` (db/dao/base_dao.py) over an in-memory table: the rows in
    storage order, each with a primary key. A keyword filter (`filter_by`) is
    a predicate on rows; the conflict column of the upserts is the primary
    key. */
module BaseDao {
  import opened Wrappers
  import opened Errors
  import opened Sorting

  /** Some row has key `k`. */
  predicate HasRowKey<K(==), R>(rows: seq<R>, keyOf: R -> K, k: K)
  {
    exists i :: 0 <= i < |rows| && keyOf(rows[i]) == k
  }

  /** The primary-key constraint: no two rows share a key. */
  ghost predicate UniqueKeys<K, R>(rows: seq<R>, keyOf: R -> K)
  {
    forall i, j :: 0 <= i < j < |rows| ==> keyOf(rows[i]) != keyOf(rows[j])
  }

  /** The filter "the key is `k`". */
  function KeyIs<K(==), R>(keyOf: R -> K, k: K): R -> bool
  {
    (r: R) => keyOf(r) == k
  }

  /** `_get_model_data`: each column name mapped to the instance's value for
      it (`getattr`). */
  function ModelData<V>(columns: seq<string>, getattr: string -> V): (d: map<string, V>)
    ensures d.Keys == set c | c in columns
    ensures forall c :: c in d ==> d[c] == getattr(c)
  {
    if columns == [] then map[]
    else ModelData(columns[1..], getattr)[columns[0] := getattr(columns[0])]
  }

  /** `INSERT ... ON CONFLICT DO NOTHING` of one row. */
  function InsertIfAbsent<K(==), R>(rows: seq<R>, keyOf: R -> K, r: R): (t: seq<R>)
    // the rows already there are never changed
    ensures rows <= t && |t| <= |rows| + 1
    // afterwards the key is present
    ensures HasRowKey(t, keyOf, keyOf(r))
    // the row is added exactly when its key was absent
    ensures !HasRowKey(rows, keyOf, keyOf(r)) ==> t == rows + [r]
    ensures HasRowKey(rows, keyOf, keyOf(r)) ==> t == rows
  {
    if HasRowKey(rows, keyOf, keyOf(r)) then rows
    else
      assert keyOf((rows + [r])[|rows|]) == keyOf(r);
      rows + [r]
  }

  lemma InsertIfAbsentUnique<K, R>(rows: seq<R>, keyOf: R -> K, r: R)
    requires UniqueKeys(rows, keyOf)
    ensures UniqueKeys(InsertIfAbsent(rows, keyOf, r), keyOf)
  {
  }

  /** Every row with the key of `r` replaced by `r`, in place. */
  function Overwrite<K(==), R>(rows: seq<R>, keyOf: R -> K, r: R): (t: seq<R>)
    ensures |t| == |rows|
    ensures forall i :: 0 <= i < |rows| ==> t[i] == if keyOf(rows[i]) == keyOf(r) then r else rows[i]
  {
    if rows == [] then []
    else [if keyOf(rows[0]) == keyOf(r) then r else rows[0]] + Overwrite(rows[1..], keyOf, r)
  }

  /** `INSERT ... ON CONFLICT (key) DO UPDATE SET <every column>` of one row. */
  function Upsert<K(==), R>(rows: seq<R>, keyOf: R -> K, r: R): (t: seq<R>)
    ensures |t| == |rows| + (if HasRowKey(rows, keyOf, keyOf(r)) then 0 else 1)
    // rows with another key keep their place and value
    ensures forall i :: 0 <= i < |rows| && keyOf(rows[i]) != keyOf(r) ==> t[i] == rows[i]
    // the conflicting row takes every new value
    ensures forall i :: 0 <= i < |rows| && keyOf(rows[i]) == keyOf(r) ==> t[i] == r
    // without a conflict the row is added at the end
    ensures !HasRowKey(rows, keyOf, keyOf(r)) ==> t == rows + [r]
  {
    if HasRowKey(rows, keyOf, keyOf(r)) then Overwrite(rows, keyOf, r) else rows + [r]
  }

  lemma {:induction false} UpsertUnique<K, R>(rows: seq<R>, keyOf: R -> K, r: R)
    requires UniqueKeys(rows, keyOf)
    ensures UniqueKeys(Upsert(rows, keyOf, r), keyOf)
  {
    var t := Upsert(rows, keyOf, r);
    forall i, j | 0 <= i < j < |t|
      ensures keyOf(t[i]) != keyOf(t[j])
    {
      if j == |rows| {
        assert !HasRowKey(rows, keyOf, keyOf(r));
        assert keyOf(rows[i]) != keyOf(r);
      }
    }
  }

  /** `INSERT ... ON CONFLICT DO NOTHING` of a batch, row by row: a row whose
      key is already present, in the table or earlier in the batch, is
      skipped. */
  function InsertAllIfAbsent<K(==), R>(rows: seq<R>, keyOf: R -> K, batch: seq<R>): (t: seq<R>)
    // the rows already there are never changed
    ensures rows <= t && |t| <= |rows| + |batch|
    decreases |batch|
  {
    if batch == [] then rows
    else InsertAllIfAbsent(InsertIfAbsent(rows, keyOf, batch[0]), keyOf, batch[1..])
  }

  /** After a batch insert every key of the batch is present, and nothing
      but rows of the batch was added. */
  lemma {:induction false} InsertAllCovers<K, R>(rows: seq<R>, keyOf: R -> K, batch: seq<R>)
    ensures forall i :: 0 <= i < |batch| ==> HasRowKey(InsertAllIfAbsent(rows, keyOf, batch), keyOf, keyOf(batch[i]))
    ensures forall i :: |rows| <= i < |InsertAllIfAbsent(rows, keyOf, batch)| ==> InsertAllIfAbsent(rows, keyOf, batch)[i] in batch
    decreases |batch|
  {
    if batch != [] {
      var next := InsertIfAbsent(rows, keyOf, batch[0]);
      var t := InsertAllIfAbsent(next, keyOf, batch[1..]);
      assert t == InsertAllIfAbsent(rows, keyOf, batch);
      InsertAllCovers(next, keyOf, batch[1..]);
      forall i | 0 <= i < |batch|
        ensures HasRowKey(t, keyOf, keyOf(batch[i]))
      {
        if i == 0 {
          var j :| 0 <= j < |next| && keyOf(next[j]) == keyOf(batch[0]);
          assert t[j] == next[j];
        } else {
          assert batch[i] == batch[1..][i - 1];
        }
      }
      forall i | |rows| <= i < |t|
        ensures t[i] in batch
      {
        if i < |next| {
          assert next == rows + [batch[0]] && t[i] == next[i];
        } else {
          assert t[i] in batch[1..];
        }
      }
    }
  }

  lemma {:induction false} InsertAllUnique<K, R>(rows: seq<R>, keyOf: R -> K, batch: seq<R>)
    requires UniqueKeys(rows, keyOf)
    ensures UniqueKeys(InsertAllIfAbsent(rows, keyOf, batch), keyOf)
    decreases |batch|
  {
    if batch != [] {
      InsertIfAbsentUnique(rows, keyOf, batch[0]);
      InsertAllUnique(InsertIfAbsent(rows, keyOf, batch[0]), keyOf, batch[1..]);
    }
  }

  lemma HasRowKeySnoc<K, R>(rows: seq<R>, x: R, keyOf: R -> K, k: K)
    ensures HasRowKey(rows + [x], keyOf, k) <==> HasRowKey(rows, keyOf, k) || keyOf(x) == k
  {
    if HasRowKey(rows + [x], keyOf, k) {
      var j :| 0 <= j < |rows| + 1 && keyOf((rows + [x])[j]) == k;
      if j < |rows| {
        assert keyOf(rows[j]) == k;
      }
    }
    if HasRowKey(rows, keyOf, k) {
      var j :| 0 <= j < |rows| && keyOf(rows[j]) == k;
      assert keyOf((rows + [x])[j]) == k;
    }
    if keyOf(x) == k {
      assert keyOf((rows + [x])[|rows|]) == k;
    }
  }

  lemma UniqueTail<K, R>(batch: seq<R>, keyOf: R -> K)
    requires batch != [] && UniqueKeys(batch, keyOf)
    ensures UniqueKeys(batch[1..], keyOf)
    ensures forall i :: 1 <= i < |batch| ==> keyOf(batch[i]) != keyOf(batch[0])
  {
    var rest := batch[1..];
    forall i, j | 0 <= i < j < |rest|
      ensures keyOf(rest[i]) != keyOf(rest[j])
    {
      assert rest[i] == batch[i + 1] && rest[j] == batch[j + 1];
    }
  }

  lemma FreshAfterInsert<K, R>(rows: seq<R>, keyOf: R -> K, batch: seq<R>)
    requires batch != [] && UniqueKeys(batch, keyOf)
    requires forall i :: 0 <= i < |batch| ==> !HasRowKey(rows, keyOf, keyOf(batch[i]))
    ensures forall i :: 0 <= i < |batch[1..]| ==> !HasRowKey(rows + [batch[0]], keyOf, keyOf(batch[1..][i]))
  {
    UniqueTail(batch, keyOf);
    forall i | 0 <= i < |batch[1..]|
      ensures !HasRowKey(rows + [batch[0]], keyOf, keyOf(batch[1..][i]))
    {
      assert batch[1..][i] == batch[i + 1];
      HasRowKeySnoc(rows, batch[0], keyOf, keyOf(batch[i + 1]));
    }
  }

  lemma InsertAllStep<K, R>(rows: seq<R>, keyOf: R -> K, batch: seq<R>)
    requires batch != [] && !HasRowKey(rows, keyOf, keyOf(batch[0]))
    ensures InsertAllIfAbsent(rows, keyOf, batch) == InsertAllIfAbsent(rows + [batch[0]], keyOf, batch[1..])
  {
  }

  /** A batch whose keys are new and distinct is inserted whole, in order. */
  lemma {:induction false} InsertAllFresh<K, R>(rows: seq<R>, keyOf: R -> K, batch: seq<R>)
    requires UniqueKeys(batch, keyOf)
    requires forall i :: 0 <= i < |batch| ==> !HasRowKey(rows, keyOf, keyOf(batch[i]))
    ensures InsertAllIfAbsent(rows, keyOf, batch) == rows + batch
    decreases |batch|
  {
    if batch != [] {
      var next := rows + [batch[0]];
      InsertAllStep(rows, keyOf, batch);
      UniqueTail(batch, keyOf);
      FreshAfterInsert(rows, keyOf, batch);
      InsertAllFresh(next, keyOf, batch[1..]);
      assert next + batch[1..] == rows + batch;
    }
  }

  /** A batch whose keys are all present already changes nothing: a re-sent
      batch creates no duplicate row. */
  lemma {:induction false} InsertAllPresent<K, R>(rows: seq<R>, keyOf: R -> K, batch: seq<R>)
    requires forall i :: 0 <= i < |batch| ==> HasRowKey(rows, keyOf, keyOf(batch[i]))
    ensures InsertAllIfAbsent(rows, keyOf, batch) == rows
    decreases |batch|
  {
    if batch != [] {
      assert forall i :: 0 <= i < |batch[1..]| ==> batch[1..][i] == batch[i + 1];
      InsertAllPresent(rows, keyOf, batch[1..]);
    }
  }

  /** `INSERT ... ON CONFLICT (key) DO UPDATE` of a batch, row by row. */
  function UpsertAll<K(==), R>(rows: seq<R>, keyOf: R -> K, batch: seq<R>): (t: seq<R>)
    ensures |rows| <= |t| <= |rows| + |batch|
    ensures forall i :: 0 <= i < |rows| && (forall j :: 0 <= j < |batch| ==> keyOf(batch[j]) != keyOf(rows[i])) ==> t[i] == rows[i]
    decreases |batch|
  {
    if batch == [] then rows
    else
      var next := Upsert(rows, keyOf, batch[0]);
      assert forall j :: 1 <= j < |batch| ==> batch[j] == batch[1..][j - 1];
      UpsertAll(next, keyOf, batch[1..])
  }

  lemma {:induction false} UpsertAllUnique<K, R>(rows: seq<R>, keyOf: R -> K, batch: seq<R>)
    requires UniqueKeys(rows, keyOf)
    ensures UniqueKeys(UpsertAll(rows, keyOf, batch), keyOf)
    decreases |batch|
  {
    if batch != [] {
      UpsertUnique(rows, keyOf, batch[0]);
      UpsertAllUnique(Upsert(rows, keyOf, batch[0]), keyOf, batch[1..]);
    }
  }

  /** `select(...).filter_by(...)` then `.first()`: the first matching row in
      storage order, if any. */
  function FirstWhere<R>(rows: seq<R>, filter: R -> bool): (r: Option<R>)
    ensures r.None? <==> Filter(rows, filter) == []
    ensures r.Some? ==> r.value == Filter(rows, filter)[0] && filter(r.value) && r.value in rows
  {
    if rows == [] then None
    else if filter(rows[0]) then Some(rows[0])
    else FirstWhere(rows[1..], filter)
  }

  /** Overwriting the rows of another key leaves the rows of key `k` as they were. */
  lemma {:induction false} OverwriteOtherKey<K, R>(rows: seq<R>, keyOf: R -> K, r: R, k: K)
    requires keyOf(r) != k
    ensures Filter(Overwrite(rows, keyOf, r), KeyIs(keyOf, k)) == Filter(rows, KeyIs(keyOf, k))
  {
    if rows != [] {
      OverwriteOtherKey(rows[1..], keyOf, r, k);
    }
  }

  /** An upsert of another key does not change what a read of key `k` finds. */
  lemma UpsertOtherKey<K, R>(rows: seq<R>, keyOf: R -> K, r: R, k: K)
    requires keyOf(r) != k
    ensures FirstWhere(Upsert(rows, keyOf, r), KeyIs(keyOf, k)) == FirstWhere(rows, KeyIs(keyOf, k))
  {
    if HasRowKey(rows, keyOf, keyOf(r)) {
      OverwriteOtherKey(rows, keyOf, r, k);
    } else {
      FilterSnoc(rows, r, KeyIs(keyOf, k));
    }
  }

  /** A batch upsert that does not mention key `k` does not change what a
      read of `k` finds. */
  lemma {:induction false} UpsertAllOtherKey<K, R>(rows: seq<R>, keyOf: R -> K, batch: seq<R>, k: K)
    requires forall j :: 0 <= j < |batch| ==> keyOf(batch[j]) != k
    ensures FirstWhere(UpsertAll(rows, keyOf, batch), KeyIs(keyOf, k)) == FirstWhere(rows, KeyIs(keyOf, k))
    decreases |batch|
  {
    if batch != [] {
      UpsertOtherKey(rows, keyOf, batch[0], k);
      assert forall j :: 0 <= j < |batch[1..]| ==> batch[1..][j] == batch[j + 1];
      UpsertAllOtherKey(Upsert(rows, keyOf, batch[0]), keyOf, batch[1..], k);
    }
  }

  /** Every batch value is written: with unique keys, a read of a batch key
      finds the last batch row with that key. */
  lemma {:induction false} UpsertAllWrites<K, R>(rows: seq<R>, keyOf: R -> K, batch: seq<R>, i: nat)
    requires UniqueKeys(rows, keyOf) && i < |batch|
    requires forall j :: i < j < |batch| ==> keyOf(batch[j]) != keyOf(batch[i])
    ensures FirstWhere(UpsertAll(rows, keyOf, batch), KeyIs(keyOf, keyOf(batch[i]))) == Some(batch[i])
    decreases |batch|
  {
    var next := Upsert(rows, keyOf, batch[0]);
    UpsertUnique(rows, keyOf, batch[0]);
    assert forall j :: 0 <= j < |batch[1..]| ==> batch[1..][j] == batch[j + 1];
    if i == 0 {
      UpsertThenRead(rows, keyOf, batch[0]);
      UpsertAllOtherKey(next, keyOf, batch[1..], keyOf(batch[0]));
    } else {
      UpsertAllWrites(next, keyOf, batch[1..], i - 1);
    }
  }

  /** A batch upsert stores nothing but old rows and batch rows. */
  lemma {:induction false} UpsertAllRowsFrom<K, R>(rows: seq<R>, keyOf: R -> K, batch: seq<R>)
    ensures forall x :: x in UpsertAll(rows, keyOf, batch) ==> x in rows || x in batch
    decreases |batch|
  {
    if batch != [] {
      var next := Upsert(rows, keyOf, batch[0]);
      assert forall x :: x in next ==> x in rows || x == batch[0] by {
        forall x | x in next
          ensures x in rows || x == batch[0]
        {
          var i :| 0 <= i < |next| && next[i] == x;
          if i < |rows| && keyOf(rows[i]) != keyOf(batch[0]) {
            assert x == rows[i];
          }
        }
      }
      UpsertAllRowsFrom(next, keyOf, batch[1..]);
      assert forall x :: x in batch[1..] ==> x in batch;
    }
  }

  /** A row stored by an upsert is what a read by its key finds, when keys
      are unique. */
  lemma {:induction false} UpsertThenRead<K, R>(rows: seq<R>, keyOf: R -> K, r: R)
    requires UniqueKeys(rows, keyOf)
    ensures FirstWhere(Upsert(rows, keyOf, r), KeyIs(keyOf, keyOf(r))) == Some(r)
  {
    var t := Upsert(rows, keyOf, r);
    UpsertUnique(rows, keyOf, r);
    var i :| 0 <= i < |t| && keyOf(t[i]) == keyOf(r) && t[i] == r by {
      if HasRowKey(rows, keyOf, keyOf(r)) {
        var k :| 0 <= k < |rows| && keyOf(rows[k]) == keyOf(r);
        assert t[k] == r;
      } else {
        assert t[|rows|] == r;
      }
    }
    FirstWhereUniqueKey(t, keyOf, i);
  }

  lemma {:induction false} FirstWhereUniqueKey<K, R>(rows: seq<R>, keyOf: R -> K, i: nat)
    requires UniqueKeys(rows, keyOf) && i < |rows|
    ensures FirstWhere(rows, KeyIs(keyOf, keyOf(rows[i]))) == Some(rows[i])
  {
    if i > 0 {
      assert keyOf(rows[0]) != keyOf(rows[i]);
      assert rows[1..][i - 1] == rows[i];
      FirstWhereUniqueKey(rows[1..], keyOf, i - 1);
    }
  }

  /** `select(...).filter_by(...).order_by(created_at)`: the matching rows in
      ascending creation time; rows created at the same time stay in storage
      order, which is one of the orders the database may return. */
  function SelectOrdered<R>(rows: seq<R>, filter: R -> bool, createdAt: R -> real): (r: seq<R>)
    ensures SortedBy(r, createdAt)
    ensures forall i :: 0 <= i < |r| ==> filter(r[i])
    ensures multiset(r) == multiset(Filter(rows, filter))
  {
    var matching := Filter(rows, filter);
    var r := SortBy(matching, createdAt);
    assert forall i :: 0 <= i < |r| ==> r[i] in multiset(matching);
    r
  }

  /** Every row the filter accepts is read. */
  lemma SelectComplete<R>(rows: seq<R>, filter: R -> bool, createdAt: R -> real, x: R)
    requires x in rows && filter(x)
    ensures x in SelectOrdered(rows, filter, createdAt)
  {
    FilterCount(rows, filter, x);
    assert x in multiset(SelectOrdered(rows, filter, createdAt));
  }

  function Not<R>(filter: R -> bool): R -> bool
  {
    (r: R) => !filter(r)
  }

  /** `delete(...).filter_by(...)`: every matching row goes, the others stay
      in order. */
  function DeleteWhere<R>(rows: seq<R>, filter: R -> bool): (t: seq<R>)
    ensures forall i :: 0 <= i < |t| ==> !filter(t[i])
  {
    Filter(rows, Not(filter))
  }

  /** A row that does not match keeps all its copies; a matching one loses all. */
  lemma DeleteWhereCounts<R>(rows: seq<R>, filter: R -> bool, x: R)
    ensures multiset(DeleteWhere(rows, filter))[x] == if filter(x) then 0 else multiset(rows)[x]
  {
    FilterCount(rows, Not(filter), x);
  }

  /** Deleting the first matching row only. */
  function DeleteFirst<R>(rows: seq<R>, filter: R -> bool): (t: seq<R>)
    ensures FirstWhere(rows, filter).None? ==> t == rows
    ensures FirstWhere(rows, filter).Some? ==>
      |t| == |rows| - 1 && multiset(t) == multiset(rows) - multiset{FirstWhere(rows, filter).value}
  {
    if rows == [] then []
    else if filter(rows[0]) then
      assert rows == [rows[0]] + rows[1..];
      rows[1..]
    else
      assert rows == [rows[0]] + rows[1..];
      [rows[0]] + DeleteFirst(rows[1..], filter)
  }

  /** `add_many_on_conflict_do_update` as written: the insert is built on
      the class of the first column dictionary instead of the model's table,
      which SQLAlchemy rejects with `ArgumentError` before anything is
      written; only the empty batch gets through, as a no-op. */
  function AddManyDoUpdateAsWritten<K, R>(rows: seq<R>, keyOf: R -> K, batch: seq<R>): (r: Result<seq<R>, Exception>)
    ensures batch == [] ==> r == Success(rows)
    ensures batch != [] ==> r == Failure(ArgumentError)
  {
    if batch == [] then Success(rows) else Failure(ArgumentError)
  }

  /** As written, no non-empty batch is ever upserted, while the intended
      upsert stores every row of a batch with distinct keys. */
  lemma {:induction false} AddManyDoUpdateAsWrittenFails<K, R>(rows: seq<R>, keyOf: R -> K, r: R)
    requires UniqueKeys(rows, keyOf)
    ensures AddManyDoUpdateAsWritten(rows, keyOf, [r]).Failure?
    ensures FirstWhere(UpsertAll(rows, keyOf, [r]), KeyIs(keyOf, keyOf(r))) == Some(r)
  {
    assert UpsertAll(rows, keyOf, [r]) == UpsertAll(Upsert(rows, keyOf, r), keyOf, []);
    UpsertThenRead(rows, keyOf, r);
  }

  /** `delete_single_row` is written as `delete_many_rows` is: with two
      matching rows both go, where deleting a single row leaves one. */
  lemma DeleteSingleAsWrittenRemovesAll<R>(a: R, b: R, filter: R -> bool)
    requires filter(a) && filter(b)
    ensures DeleteWhere([a, b], filter) == []
    ensures DeleteFirst([a, b], filter) == [b]
  {
    assert Filter([a, b], Not(filter)) == Filter([b], Not(filter));
    assert Filter([b], Not(filter)) == Filter([], Not(filter));
  }

  /** An in-memory table of rows with primary key `keyOf`. */
  class Table<K(==), R> {
    const keyOf: R -> K
    const createdAt: R -> real
    var rows: seq<R>

    ghost predicate Valid()
      reads this
    {
      UniqueKeys(rows, keyOf)
    }

    constructor(keyOf: R -> K, createdAt: R -> real)
      ensures this.keyOf == keyOf && this.createdAt == createdAt
      ensures rows == [] && Valid()
    {
      this.keyOf := keyOf;
      this.createdAt := createdAt;
      rows := [];
    }

    /** `add_single_on_conflict_do_nothing`. */
    method AddSingleOnConflictDoNothing(modelInstance: R)
      requires Valid()
      modifies this
      ensures rows == InsertIfAbsent(old(rows), keyOf, modelInstance)
      ensures Valid()
    {
      InsertIfAbsentUnique(rows, keyOf, modelInstance);
      rows := InsertIfAbsent(rows, keyOf, modelInstance);
    }

    /** `add_single_on_conflict_do_update`, conflicting on the key. */
    method AddSingleOnConflictDoUpdate(modelInstance: R)
      requires Valid()
      modifies this
      ensures rows == Upsert(old(rows), keyOf, modelInstance)
      ensures Valid()
    {
      UpsertUnique(rows, keyOf, modelInstance);
      rows := Upsert(rows, keyOf, modelInstance);
    }

    /** `add_many_on_conflict_do_nothing`; an empty batch does nothing. */
    method AddManyOnConflictDoNothing(modelInstances: seq<R>)
      requires Valid()
      modifies this
      ensures rows == InsertAllIfAbsent(old(rows), keyOf, modelInstances)
      ensures Valid()
    {
      if modelInstances != [] {
        InsertAllUnique(rows, keyOf, modelInstances);
        rows := InsertAllIfAbsent(rows, keyOf, modelInstances);
      }
    }

    /** `add_many_on_conflict_do_update` as evidently intended: the batch is
        upserted into this table. */
    method AddManyOnConflictDoUpdate(modelInstances: seq<R>)
      requires Valid()
      modifies this
      ensures rows == UpsertAll(old(rows), keyOf, modelInstances)
      ensures Valid()
    {
      if modelInstances != [] {
        UpsertAllUnique(rows, keyOf, modelInstances);
        rows := UpsertAll(rows, keyOf, modelInstances);
      }
    }

    /** `get_single_row`. */
    method GetSingleRow(filter: R -> bool) returns (r: Option<R>)
      ensures r.None? <==> forall i :: 0 <= i < |rows| ==> !filter(rows[i])
      ensures r.Some? ==> r.value in rows && filter(r.value)
      ensures r == FirstWhere(rows, filter)
    {
      r := FirstWhere(rows, filter);
      if r.None? {
        forall i | 0 <= i < |rows|
          ensures !filter(rows[i])
        {
          if filter(rows[i]) {
            SelectComplete(rows, filter, createdAt, rows[i]);
            assert false;
          }
        }
      }
    }

    /** `get_many_rows`: the matching rows by ascending creation time. */
    method GetManyRows(filter: R -> bool) returns (r: seq<R>)
      ensures r == SelectOrdered(rows, filter, createdAt)
    {
      r := SelectOrdered(rows, filter, createdAt);
    }

    /** `get_all_rows`. */
    method GetAllRows() returns (r: seq<R>)
      ensures r == rows
    {
      r := rows;
    }

    /** `delete_single_row` as evidently intended: the first matching row
        only. */
    method DeleteSingleRow(filter: R -> bool)
      requires Valid()
      modifies this
      ensures rows == DeleteFirst(old(rows), filter)
      ensures Valid()
    {
      var t := DeleteFirst(rows, filter);
      DeleteFirstUnique(rows, keyOf, filter);
      rows := t;
    }

    /** `delete_many_rows`. */
    method DeleteManyRows(filter: R -> bool)
      requires Valid()
      modifies this
      ensures rows == DeleteWhere(old(rows), filter)
      ensures Valid()
    {
      FilterUnique(rows, keyOf, Not(filter));
      rows := DeleteWhere(rows, filter);
    }
  }

  lemma {:induction false} FilterUnique<K, R>(rows: seq<R>, keyOf: R -> K, p: R -> bool)
    requires UniqueKeys(rows, keyOf)
    ensures UniqueKeys(Filter(rows, p), keyOf)
  {
    if rows != [] {
      FilterUnique(rows[1..], keyOf, p);
      if p(rows[0]) {
        var rest := Filter(rows[1..], p);
        assert Filter(rows, p) == [rows[0]] + rest;
        forall j | 0 <= j < |rest|
          ensures keyOf(rest[j]) != keyOf(rows[0])
        {
          FilterCount(rows[1..], p, rest[j]);
          assert rest[j] in multiset(rows[1..]);
        }
      }
    }
  }

  lemma {:induction false} DeleteFirstUnique<K, R>(rows: seq<R>, keyOf: R -> K, filter: R -> bool)
    requires UniqueKeys(rows, keyOf)
    ensures UniqueKeys(DeleteFirst(rows, filter), keyOf)
  {
    if rows != [] && !filter(rows[0]) {
      DeleteFirstUnique(rows[1..], keyOf, filter);
      var rest := DeleteFirst(rows[1..], filter);
      forall j | 0 <= j < |rest|
        ensures keyOf(rest[j]) != keyOf(rows[0])
      {
        assert rest[j] in multiset(rest);
        assert rest[j] in multiset(rows[1..]);
      }
    }
  }
}

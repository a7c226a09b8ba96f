/** `compare_output_columns`: the difference between the output columns of
    two dataset descriptions, by column name.

    `{col["Name"]: col["Type"] for col in ...}` builds a Python dict, which
    is modelled as what it is: its items in insertion order. Assigning to a
    present key keeps its place and replaces its value; a new key goes last. */
module ColumnDiff {
  import opened Wrappers

  datatype Column = Column(name: string, columnType: string)

  /** A dataset description; only `OutputColumns` is read, and a missing one
      counts as empty. */
  datatype Dataset = Dataset(outputColumns: Option<seq<Column>>)

  datatype TypeChange = TypeChange(columnName: string, oldType: string, newType: string)

  datatype Added = Added(columnName: string, newType: string)

  datatype Changes = Changes(datatypeChanges: seq<TypeChange>, addedColumns: seq<Added>, removedColumns: seq<string>)

  /** A dict from column name to type, as its `items()`. */
  type Dict = seq<(string, string)>

  function Columns(d: Dataset): seq<Column> {
    d.outputColumns.GetOr([])
  }

  ghost predicate Distinct(xs: seq<string>) {
    forall i, j :: 0 <= i < j < |xs| ==> xs[i] != xs[j]
  }

  function Keys(d: Dict): (ks: seq<string>)
    ensures |ks| == |d| && forall i :: 0 <= i < |d| ==> ks[i] == d[i].0
  {
    seq(|d|, i requires 0 <= i < |d| => d[i].0)
  }

  /** Where key `k` sits. */
  function Position(d: Dict, k: string): (i: nat)
    requires k in Keys(d)
    ensures i < |d| && d[i].0 == k && forall j :: 0 <= j < i ==> d[j].0 != k
  {
    if d[0].0 == k then 0
    else
      assert k in Keys(d[1..]) by {
        var j :| 0 <= j < |d| && Keys(d)[j] == k;
        assert Keys(d[1..])[j - 1] == k;
      }
      1 + Position(d[1..], k)
  }

  /** `d.get(k)`. */
  function Find(d: Dict, k: string): (r: Option<string>)
    ensures r.None? <==> k !in Keys(d)
  {
    if k in Keys(d) then Some(d[Position(d, k)].1) else None
  }

  /** `d[k] = v`. */
  function Put(d: Dict, k: string, v: string): (r: Dict)
    ensures Keys(r) == if k in Keys(d) then Keys(d) else Keys(d) + [k]
  {
    if k in Keys(d) then d[Position(d, k) := (k, v)] else d + [(k, v)]
  }

  /** The type of the last column of that name: the reference for what the
      comprehension keeps. */
  function LastType(cols: seq<Column>, n: string): Option<string> {
    if cols == [] then None
    else if cols[|cols| - 1].name == n then Some(cols[|cols| - 1].columnType)
    else LastType(cols[..|cols| - 1], n)
  }

  /** Reading after an assignment to a dict without repeated keys. */
  lemma FindPut(d: Dict, k: string, v: string, n: string)
    requires Distinct(Keys(d))
    ensures Find(Put(d, k, v), n) == if n == k then Some(v) else Find(d, n)
  {
    var r := Put(d, k, v);
    if n in Keys(r) {
      var p := Position(r, n);
      if k in Keys(d) {
        var q := Position(d, k);
        assert Keys(r) == Keys(d);
        assert Position(d, n) == p by {
          var pd := Position(d, n);
          assert Keys(d)[pd] == n && Keys(r)[p] == n;
        }
        if n == k { assert p == q; } else { assert p != q; }
      } else if n == k {
        assert p == |d|;
      } else {
        assert p < |d|;
        assert Position(d, n) == p by {
          var pd := Position(d, n);
          assert r[pd] == d[pd];
        }
      }
    }
  }

  /** The comprehension: keys without repetition, each holding the type of
      its last column. */
  function DictOf(cols: seq<Column>): (d: Dict)
    ensures Distinct(Keys(d))
    ensures forall n :: Find(d, n) == LastType(cols, n)
  {
    if cols == [] then []
    else
      var prior := DictOf(cols[..|cols| - 1]);
      var c := cols[|cols| - 1];
      var d := Put(prior, c.name, c.columnType);
      assert forall n :: Find(d, n) == LastType(cols, n) by {
        forall n ensures Find(d, n) == LastType(cols, n) {
          FindPut(prior, c.name, c.columnType, n);
        }
      }
      d
  }

  /** In a dict without repeated keys, an item is exactly a key with its value. */
  lemma ItemFind(d: Dict, k: string, v: string)
    requires Distinct(Keys(d))
    ensures (k, v) in d <==> Find(d, k) == Some(v)
  {
    if (k, v) in d {
      var i :| 0 <= i < |d| && d[i] == (k, v);
      assert Keys(d)[i] == k;
      assert Position(d, k) == i;
    }
  }

  /** Names of the old dict that the new one lacks, in the old order. */
  function Removed(before: Dict, after: Dict): seq<string> {
    if before == [] then []
    else
      var (n, _) := before[|before| - 1];
      Removed(before[..|before| - 1], after) + (if Find(after, n).None? then [n] else [])
  }

  /** Names of the old dict whose type differs in the new one, in the old order. */
  function Retyped(before: Dict, after: Dict): seq<TypeChange> {
    if before == [] then []
    else
      var (n, t) := before[|before| - 1];
      var found := Find(after, n);
      Retyped(before[..|before| - 1], after) + (if found.Some? && found.value != t then [TypeChange(n, t, found.value)] else [])
  }

  /** Names of the new dict that the old one lacks, in the new order. */
  function AddedColumns(after: Dict, before: Dict): seq<Added> {
    if after == [] then []
    else
      var (n, t) := after[|after| - 1];
      AddedColumns(after[..|after| - 1], before) + (if n !in Keys(before) then [Added(n, t)] else [])
  }

  /** The difference the function computes. */
  function Diff(before: Dataset, after: Dataset): Changes {
    var o, n := DictOf(Columns(before)), DictOf(Columns(after));
    Changes(Retyped(o, n), AddedColumns(n, o), Removed(o, n))
  }

  /** The function as written: the two loops appending to the three lists. */
  method CompareOutputColumns(before: Dataset, after: Dataset) returns (changes: Changes)
    ensures changes == Diff(before, after)
  {
    var oldColumns, newColumns := DictOf(Columns(before)), DictOf(Columns(after));
    var retyped: seq<TypeChange> := [];
    var added: seq<Added> := [];
    var removed: seq<string> := [];
    var i := 0;
    while i < |oldColumns|
      invariant 0 <= i <= |oldColumns|
      invariant removed == Removed(oldColumns[..i], newColumns)
      invariant retyped == Retyped(oldColumns[..i], newColumns)
    {
      var (name, oldType) := oldColumns[i];
      assert oldColumns[..i + 1][..i] == oldColumns[..i];
      var newType := Find(newColumns, name);
      if newType.None? {
        removed := removed + [name];
      } else if newType.value != oldType {
        retyped := retyped + [TypeChange(name, oldType, newType.value)];
      }
      i := i + 1;
    }
    assert oldColumns[..i] == oldColumns;
    var k := 0;
    while k < |newColumns|
      invariant 0 <= k <= |newColumns|
      invariant added == AddedColumns(newColumns[..k], oldColumns)
    {
      var (name, newType) := newColumns[k];
      assert newColumns[..k + 1][..k] == newColumns[..k];
      if name !in Keys(oldColumns) {
        added := added + [Added(name, newType)];
      }
      k := k + 1;
    }
    assert newColumns[..k] == newColumns;
    changes := Changes(retyped, added, removed);
  }

  lemma {:induction false} RemovedMembers(before: Dict, after: Dict)
    ensures forall n :: n in Removed(before, after) <==> n in Keys(before) && Find(after, n).None?
  {
    if before != [] {
      var init := before[..|before| - 1];
      RemovedMembers(init, after);
      assert Keys(before) == Keys(init) + [before[|before| - 1].0];
    }
  }

  lemma {:induction false} RetypedMembers(before: Dict, after: Dict)
    ensures forall c :: c in Retyped(before, after) <==>
      (c.columnName, c.oldType) in before && Find(after, c.columnName) == Some(c.newType) && c.oldType != c.newType
  {
    if before != [] {
      var init := before[..|before| - 1];
      RetypedMembers(init, after);
      var (n, t) := before[|before| - 1];
      var found := Find(after, n);
      assert Retyped(before, after) == Retyped(init, after) + (if found.Some? && found.value != t then [TypeChange(n, t, found.value)] else []);
      assert before == init + [(n, t)];
      forall c ensures c in Retyped(before, after) <==>
        (c.columnName, c.oldType) in before && Find(after, c.columnName) == Some(c.newType) && c.oldType != c.newType
      {
        assert (c.columnName, c.oldType) in before <==> (c.columnName, c.oldType) in init || (c.columnName, c.oldType) == (n, t);
      }
    }
  }

  lemma {:induction false} AddedMembers(after: Dict, before: Dict)
    ensures forall a :: a in AddedColumns(after, before) <==> (a.columnName, a.newType) in after && a.columnName !in Keys(before)
  {
    if after != [] {
      var init := after[..|after| - 1];
      AddedMembers(init, before);
      var (n, t) := after[|after| - 1];
      assert AddedColumns(after, before) == AddedColumns(init, before) + (if n !in Keys(before) then [Added(n, t)] else []);
      assert after == init + [(n, t)];
      forall a ensures a in AddedColumns(after, before) <==> (a.columnName, a.newType) in after && a.columnName !in Keys(before) {
        assert (a.columnName, a.newType) in after <==> (a.columnName, a.newType) in init || (a.columnName, a.newType) == (n, t);
      }
    }
  }

  /** What each list holds, against the last type of each name on each side:
      removed are the names only the old side has; a type change is a name
      both sides have with different types, carrying both; added are the
      names only the new side has, with their type. */
  lemma DiffMembers(before: Dataset, after: Dataset)
    ensures var d := Diff(before, after);
      var b, a := Columns(before), Columns(after);
      (forall n :: n in d.removedColumns <==> LastType(b, n).Some? && LastType(a, n).None?) &&
      (forall c :: c in d.datatypeChanges <==>
         LastType(b, c.columnName) == Some(c.oldType) && LastType(a, c.columnName) == Some(c.newType) && c.oldType != c.newType) &&
      (forall x :: x in d.addedColumns <==> LastType(b, x.columnName).None? && LastType(a, x.columnName) == Some(x.newType))
  {
    var o, n := DictOf(Columns(before)), DictOf(Columns(after));
    RemovedMembers(o, n);
    RetypedMembers(o, n);
    AddedMembers(n, o);
    forall k, v ensures (k, v) in o <==> Find(o, k) == Some(v) { ItemFind(o, k, v); }
    forall k, v ensures (k, v) in n <==> Find(n, k) == Some(v) { ItemFind(n, k, v); }
  }

  /** No name is in two of the lists. */
  lemma Disjoint(before: Dataset, after: Dataset)
    ensures var d := Diff(before, after);
      (forall c :: c in d.datatypeChanges ==> c.columnName !in d.removedColumns) &&
      (forall x :: x in d.addedColumns ==> x.columnName !in d.removedColumns) &&
      (forall x, c :: x in d.addedColumns && c in d.datatypeChanges ==> x.columnName != c.columnName)
  {
    DiffMembers(before, after);
  }

  /** Every old item that the new dict holds unchanged is neither removed
      nor retyped. */
  lemma {:induction false} NothingRemoved(before: Dict, after: Dict)
    requires forall i :: 0 <= i < |before| ==> Find(after, before[i].0) == Some(before[i].1)
    ensures Removed(before, after) == [] && Retyped(before, after) == []
  {
    if before != [] {
      NothingRemoved(before[..|before| - 1], after);
    }
  }

  /** Every new key the old dict holds is not added. */
  lemma {:induction false} NothingAdded(after: Dict, before: Dict)
    requires forall i :: 0 <= i < |after| ==> after[i].0 in Keys(before)
    ensures AddedColumns(after, before) == []
  {
    if after != [] {
      NothingAdded(after[..|after| - 1], before);
    }
  }

  /** Comparing a description with itself finds no difference. */
  lemma SelfDiff(d: Dataset)
    ensures Diff(d, d) == Changes([], [], [])
  {
    var o := DictOf(Columns(d));
    forall i | 0 <= i < |o| ensures Find(o, o[i].0) == Some(o[i].1) {
      ItemFind(o, o[i].0, o[i].1);
    }
    NothingRemoved(o, o);
    NothingAdded(o, o);
  }

  /** `xs` is `ys` with some elements left out. */
  predicate Subsequence(xs: seq<string>, ys: seq<string>) {
    if xs == [] then true
    else if ys == [] then false
    else if xs[|xs| - 1] == ys[|ys| - 1] then Subsequence(xs[..|xs| - 1], ys[..|ys| - 1])
    else Subsequence(xs, ys[..|ys| - 1])
  }

  lemma {:induction false} SubsequenceDropLast(xs: seq<string>, ys: seq<string>)
    requires xs != [] && Subsequence(xs, ys)
    ensures Subsequence(xs[..|xs| - 1], ys)
    decreases |ys|
  {
    var xs', ys' := xs[..|xs| - 1], ys[..|ys| - 1];
    if xs' != [] {
      if xs[|xs| - 1] == ys[|ys| - 1] {
        if xs'[|xs'| - 1] == ys[|ys| - 1] {
          SubsequenceDropLast(xs', ys');
        }
      } else {
        SubsequenceDropLast(xs, ys');
        if xs'[|xs'| - 1] == ys[|ys| - 1] {
          SubsequenceDropLast(xs', ys');
        }
      }
    }
  }

  lemma SubsequenceExtend(xs: seq<string>, ys: seq<string>, y: string)
    requires Subsequence(xs, ys)
    ensures Subsequence(xs, ys + [y])
  {
    assert (ys + [y])[..|ys|] == ys;
    if xs != [] && xs[|xs| - 1] == y {
      SubsequenceDropLast(xs, ys);
    }
  }

  /** A list without repeats whose elements occur in `ys` in the same order. */
  lemma {:induction false} SubsequenceDistinct(xs: seq<string>, ys: seq<string>)
    requires Subsequence(xs, ys) && Distinct(ys)
    ensures Distinct(xs) && forall x :: x in xs ==> x in ys
    decreases |ys|
  {
    if xs != [] {
      var xs', ys' := xs[..|xs| - 1], ys[..|ys| - 1];
      assert Distinct(ys');
      if xs[|xs| - 1] == ys[|ys| - 1] {
        SubsequenceDistinct(xs', ys');
        assert ys == ys' + [ys[|ys| - 1]];
        assert xs == xs' + [xs[|xs| - 1]];
        assert ys[|ys| - 1] !in ys' by {
          forall k | 0 <= k < |ys'| ensures ys'[k] != ys[|ys| - 1] { assert ys'[k] == ys[k]; }
        }
      } else {
        SubsequenceDistinct(xs, ys');
      }
    }
  }

  /** The names `name` reads off a list of entries, in order. */
  function Names<T>(xs: seq<T>, name: T -> string): (ns: seq<string>)
    ensures |ns| == |xs| && forall i :: 0 <= i < |xs| ==> ns[i] == name(xs[i])
  {
    seq(|xs|, i requires 0 <= i < |xs| => name(xs[i]))
  }

  function RetypedNames(cs: seq<TypeChange>): seq<string> {
    Names(cs, (c: TypeChange) => c.columnName)
  }

  function AddedNames(xs: seq<Added>): seq<string> {
    Names(xs, (a: Added) => a.columnName)
  }

  lemma {:induction false} RemovedOrder(before: Dict, after: Dict)
    ensures Subsequence(Removed(before, after), Keys(before))
  {
    if before != [] {
      var init, n := before[..|before| - 1], before[|before| - 1].0;
      RemovedOrder(init, after);
      assert Keys(before) == Keys(init) + [n];
      var r := Removed(before, after);
      if Find(after, n).None? {
        assert r[..|r| - 1] == Removed(init, after) && r[|r| - 1] == n;
      } else {
        assert r == Removed(init, after);
        SubsequenceExtend(r, Keys(init), n);
      }
    }
  }

  lemma {:induction false} RetypedOrder(before: Dict, after: Dict)
    ensures Subsequence(RetypedNames(Retyped(before, after)), Keys(before))
  {
    if before != [] {
      var init := before[..|before| - 1];
      var (n, t) := before[|before| - 1];
      RetypedOrder(init, after);
      assert Keys(before) == Keys(init) + [n];
      var r := RetypedNames(Retyped(before, after));
      var found := Find(after, n);
      if found.Some? && found.value != t {
        assert r[..|r| - 1] == RetypedNames(Retyped(init, after)) && r[|r| - 1] == n;
      } else {
        assert r == RetypedNames(Retyped(init, after));
        SubsequenceExtend(r, Keys(init), n);
      }
    }
  }

  lemma {:induction false} AddedOrder(after: Dict, before: Dict)
    ensures Subsequence(AddedNames(AddedColumns(after, before)), Keys(after))
  {
    if after != [] {
      var init, n := after[..|after| - 1], after[|after| - 1].0;
      AddedOrder(init, before);
      assert Keys(after) == Keys(init) + [n];
      var r := AddedNames(AddedColumns(after, before));
      if n !in Keys(before) {
        assert r[..|r| - 1] == AddedNames(AddedColumns(init, before)) && r[|r| - 1] == n;
      } else {
        assert r == AddedNames(AddedColumns(init, before));
        SubsequenceExtend(r, Keys(init), n);
      }
    }
  }

  /** Removed and retyped names follow the old dict's order and added names
      the new dict's; so no list names a column twice. */
  lemma Order(before: Dataset, after: Dataset)
    ensures var d := Diff(before, after);
      var o, n := DictOf(Columns(before)), DictOf(Columns(after));
      Subsequence(d.removedColumns, Keys(o)) && Subsequence(RetypedNames(d.datatypeChanges), Keys(o)) &&
      Subsequence(AddedNames(d.addedColumns), Keys(n)) &&
      Distinct(d.removedColumns) && Distinct(RetypedNames(d.datatypeChanges)) && Distinct(AddedNames(d.addedColumns))
  {
    var d := Diff(before, after);
    var o, n := DictOf(Columns(before)), DictOf(Columns(after));
    RemovedOrder(o, n);
    RetypedOrder(o, n);
    AddedOrder(n, o);
    SubsequenceDistinct(d.removedColumns, Keys(o));
    SubsequenceDistinct(RetypedNames(d.datatypeChanges), Keys(o));
    SubsequenceDistinct(AddedNames(d.addedColumns), Keys(n));
  }

  /** A missing `OutputColumns` compares like an empty one. */
  lemma MissingColumns(before: Dataset, after: Dataset)
    ensures Diff(Dataset(None), after) == Diff(Dataset(Some([])), after)
    ensures Diff(before, Dataset(None)) == Diff(before, Dataset(Some([])))
  {
  }
}

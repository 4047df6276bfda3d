/**
 * A named, growable column of values of one element type, with an in-place
 * element-wise transform over this column and any number of others.
 */
module VDataBase {
  import opened Wrappers

  /**
   * The number of rows `Map` transforms: the shortest of `n` (the length of
   * the column being updated) and the lengths of `columns`.
   */
  function MinLen<T>(n: nat, columns: seq<seq<T>>): (m: nat)
    ensures m <= n
    ensures forall j :: 0 <= j < |columns| ==> m <= |columns[j]|
    decreases |columns|
  {
    if columns == [] then n
    else
      var m := MinLen(n, columns[..|columns| - 1]);
      var last := |columns[|columns| - 1]|;
      if m > last then last else m
  }

  /** `MinLen` is attained: it is `n` itself or the length of one of the columns. */
  lemma {:induction false} MinLenAttained<T>(n: nat, columns: seq<seq<T>>)
    ensures MinLen(n, columns) == n || exists j :: 0 <= j < |columns| && MinLen(n, columns) == |columns[j]|
    ensures columns == [] ==> MinLen(n, columns) == n
    decreases |columns|
  {
    if columns != [] {
      var init := columns[..|columns| - 1];
      MinLenAttained(n, init);
      if MinLen(n, columns) != n && MinLen(n, columns) != |columns[|columns| - 1]| {
        var j :| 0 <= j < |init| && MinLen(n, init) == |init[j]|;
        assert columns[j] == init[j];
      }
    }
  }

  /** Row `i` across `columns`: the arguments `op` receives for index `i`. */
  function Row<T>(columns: seq<seq<T>>, i: nat): (r: seq<T>)
    requires forall j :: 0 <= j < |columns| ==> i < |columns[j]|
    ensures |r| == |columns|
    ensures forall j :: 0 <= j < |columns| ==> r[j] == columns[j][i]
  {
    seq(|columns|, j requires 0 <= j < |columns| => columns[j][i])
  }

  /**
   * What `Map` leaves in a column that held `d`: the first `MinLen` rows
   * replaced by `f` of the matching row of `columns`, the rest as they were.
   */
  function Mapped<T>(d: seq<T>, columns: seq<seq<T>>, f: seq<T> -> T): (r: seq<T>)
    ensures |r| == |d|
    ensures forall i :: 0 <= i < MinLen(|d|, columns) ==> r[i] == f(Row(columns, i))
    ensures forall i :: MinLen(|d|, columns) <= i < |d| ==> r[i] == d[i]
  {
    var m := MinLen(|d|, columns);
    seq(|d|, i requires 0 <= i < |d| => if i < m then f(Row(columns, i)) else d[i])
  }

  /** The contents of each column in `cols`, in order. */
  function Columns<T>(cols: seq<VDataTypeBase<T>>): (cs: seq<seq<T>>)
    reads cols
    ensures |cs| == |cols|
    ensures forall j :: 0 <= j < |cols| ==> cs[j] == cols[j].data
  {
    if cols == [] then [] else Columns(cols[..|cols| - 1]) + [cols[|cols| - 1].data]
  }

  /** The loop that shrinks `num` to the shortest column length. */
  method RowCount<T>(n: nat, rhs: seq<VDataTypeBase<T>>) returns (num: nat)
    ensures num == MinLen(n, Columns(rhs))
  {
    ghost var cols := Columns(rhs);
    num := n;
    var k := 0;
    while k < |rhs|
      invariant 0 <= k <= |rhs|
      invariant num == MinLen(n, cols[..k])
    {
      assert cols[..k + 1][..k] == cols[..k];
      if num > rhs[k].Len() {
        num := rhs[k].Len();
      }
      k := k + 1;
    }
    assert cols[..|rhs|] == cols;
  }

  /** The loop that fills the argument buffer with row `i` of `rhs`. */
  method GatherRow<T>(rhs: seq<VDataTypeBase<T>>, i: nat) returns (params: seq<T>)
    requires forall j :: 0 <= j < |rhs| ==> i < |rhs[j].data|
    ensures |params| == |rhs|
    ensures forall j :: 0 <= j < |rhs| ==> params[j] == rhs[j].data[i]
  {
    params := [];
    var j := 0;
    while j < |rhs|
      invariant 0 <= j <= |rhs|
      invariant |params| == j
      invariant forall k :: 0 <= k < j ==> params[k] == rhs[k].data[i]
    {
      params := params + [rhs[j].GetDataAt(i)];
      j := j + 1;
    }
  }

  class VDataTypeBase<T> {
    var name: string
    var data: seq<T>

    /** `NewVDataTypeBase`: a nil slice (None) becomes an empty column; other data is kept. */
    constructor (name: string, data: Option<seq<T>>)
      ensures this.name == name
      ensures data.None? ==> this.data == []
      ensures data.Some? ==> this.data == data.value
    {
      this.name := name;
      this.data := if data.None? then [] else data.value;
    }

    function GetName(): (n: string)
      reads this
      ensures n == name
    {
      name
    }

    function Len(): (n: nat)
      reads this
      ensures n == |data|
    {
      |data|
    }

    /** `Add`: append the values in order; never fails. */
    method Add(vals: seq<T>) returns (err: Option<string>)
      modifies this`data
      ensures data == old(data) + vals
      ensures |data| == old(|data|) + |vals|
      ensures err == None
    {
      data := data + vals;
      err := None;
    }

    /** `GetDataAt`: the element at `index` (an index out of range panics in the original). */
    function GetDataAt(index: int): (v: T)
      reads this
      requires 0 <= index < |data|
      ensures v == data[index]
    {
      data[index]
    }

    /** `Clone`: a new column under `name` holding a copy of the contents. */
    method Clone(name: string) returns (c: VDataTypeBase<T>)
      ensures fresh(c)
      ensures c.name == name && c.data == data
    {
      var copy := data;
      c := new VDataTypeBase(name, Some(copy));
    }

    /**
     * `Map`: with no `op`, report an error and change nothing; otherwise
     * overwrite each of the first `MinLen` rows with `op` of that row of
     * `rhs`. `rhs` may contain this column itself: each row is read before
     * it is written.
     */
    method Map(op: Option<seq<T> -> T>, rhs: seq<VDataTypeBase<T>>) returns (err: Option<string>)
      modifies this`data
      ensures op.None? ==> err == Some("op is nil") && data == old(data)
      ensures op.Some? ==> err == None
      ensures op.Some? ==> data == Mapped(old(data), old(Columns(rhs)), op.value)
    {
      if op.None? {
        return Some("op is nil");
      }
      var f := op.value;
      ghost var d0 := data;
      ghost var cols := Columns(rhs);
      ghost var target := Mapped(d0, cols, f);
      assert forall j :: 0 <= j < |rhs| && rhs[j] == this ==> cols[j] == d0;

      var num := RowCount(|data|, rhs);
      var i := 0;
      while i < num
        invariant 0 <= i <= num
        invariant |data| == |d0|
        invariant forall k :: 0 <= k < i ==> data[k] == target[k]
        invariant forall k :: i <= k < |d0| ==> data[k] == d0[k]
        invariant forall j :: 0 <= j < |rhs| && rhs[j] != this ==> rhs[j].data == cols[j]
      {
        var params := GatherRow(rhs, i);
        assert forall j :: 0 <= j < |rhs| ==> params[j] == cols[j][i];
        assert params == Row(cols, i);
        data := data[i := f(params)];
        i := i + 1;
      }
      assert data == target;
      assert cols == old(Columns(rhs)) && d0 == old(data);
      err := None;
    }
  }
}

/**
 * The generic column instantiated at float64, as the code generator
 * produces it. The column stores, copies and passes elements on but never
 * does arithmetic on them, so a float64 is kept as its 64-bit pattern.
 */
module VFloat64 {
  import opened Wrappers
  import VDataBase

  /** An IEEE-754 double, as its bit pattern. */
  type Float64 = bv64

  type VFloat64Base = VDataBase.VDataTypeBase<Float64>

  /** `NewVFloat64Base`: a nil slice (None) becomes an empty column. */
  method NewVFloat64Base(name: string, data: Option<seq<Float64>>) returns (c: VFloat64Base)
    ensures fresh(c)
    ensures c.name == name && c.Len() == (if data.None? then 0 else |data.value|)
    ensures c.data == (if data.None? then [] else data.value)
  {
    c := new VDataBase.VDataTypeBase(name, data);
  }

  /** `Add` on a float64 column. */
  method Add(c: VFloat64Base, vals: seq<Float64>) returns (err: Option<string>)
    modifies c`data
    ensures c.data == old(c.data) + vals && c.Len() == old(c.Len()) + |vals|
    ensures err == None
  {
    err := c.Add(vals);
  }

  /** `Clone` on a float64 column: equal contents in a new column. */
  method Clone(c: VFloat64Base, name: string) returns (copy: VFloat64Base)
    ensures fresh(copy) && copy != c
    ensures copy.name == name && copy.data == c.data
  {
    copy := c.Clone(name);
  }

  /** `Map` on a float64 column. */
  method Map(c: VFloat64Base, op: Option<seq<Float64> -> Float64>, rhs: seq<VFloat64Base>)
    returns (err: Option<string>)
    modifies c`data
    ensures op.None? ==> err == Some("op is nil") && c.data == old(c.data)
    ensures op.Some? ==> err == None
    ensures op.Some? ==> c.data == VDataBase.Mapped(old(c.data), old(VDataBase.Columns(rhs)), op.value)
  {
    err := c.Map(op, rhs);
  }
}

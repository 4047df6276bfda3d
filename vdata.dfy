/** The column element types and their display names. */
module VData {

  /** A `uint8`. */
  newtype VDataType = x: int | 0 <= x < 256 {

    /** The type's name, or "unknown datatype" for a value past the last known type. */
    function String(): (r: string)
      ensures this < vDataTypeMAX ==> r == DataTypeNames[this as int]
      ensures this >= vDataTypeMAX ==> r == "unknown datatype"
    {
      if this >= vDataTypeMAX then "unknown datatype" else DataTypeNames[this as int]
    }
  }

  const VDATETIME: VDataType := 0
  const VINT: VDataType := 1
  const VFLOAT: VDataType := 2
  const VSTRING: VDataType := 3
  /** One past the last known type; also the length of the name table. */
  const vDataTypeMAX: VDataType := 4

  const DataTypeNames: seq<string> := ["vdatetime", "vint", "vfloat", "vstring"]

  /** The constants are consecutive from 0 and the table has one name per known type. */
  lemma DataTypeTable()
    ensures VDATETIME == 0 && VINT == VDATETIME + 1 && VFLOAT == VINT + 1 && VSTRING == VFLOAT + 1
    ensures vDataTypeMAX == VSTRING + 1 && vDataTypeMAX as int == |DataTypeNames|
    ensures VDATETIME.String() == "vdatetime" && VINT.String() == "vint"
    ensures VFLOAT.String() == "vfloat" && VSTRING.String() == "vstring"
  {
  }

  /** A known type never renders as the fallback, and distinct known types render distinctly. */
  lemma StringDistinguishesKnownTypes(v: VDataType, w: VDataType)
    ensures v.String() == "unknown datatype" <==> v >= vDataTypeMAX
    ensures v < vDataTypeMAX && w < vDataTypeMAX && v != w ==> v.String() != w.String()
  {
  }
}

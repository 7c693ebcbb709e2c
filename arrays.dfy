/**
 * The abstract numpy array the validation helpers and the Blimey engine see:
 * a shape and a dtype, the dtype reduced to its kind character (plain arrays)
 * or its ordered list of named fields (structured arrays).
 */
module Arrays {

  /** A column index: a position in a plain array or a field name of a structured one. */
  datatype Index = Pos(n: int) | Name(s: string)

  /** One field of a structured dtype: its name and the kind character of its dtype. */
  datatype Field = Field(name: string, kind: char)

  /**
   * A plain dtype carries one kind character; a structured dtype carries its fields
   * (possibly none: numpy allows an empty structured dtype).
   */
  datatype DType = Plain(kind: char) | Structured(fields: seq<Field>)

  datatype NdArray = NdArray(shape: seq<nat>, dtype: DType)

  /** `len(dtype)`: the number of fields, zero for a plain dtype. */
  function FieldCount(d: DType): nat
  {
    if d.Structured? then |d.fields| else 0
  }

  /** The field names as column indices, in field order. */
  function FieldNames(fields: seq<Field>): seq<Index>
  {
    seq(|fields|, i requires 0 <= i < |fields| => Name(fields[i].name))
  }

  /** The positions `0 .. n-1` as column indices, in order. */
  function Positions(n: nat): seq<Index>
  {
    seq(n, i => Pos(i))
  }

  /** numpy refuses a structured dtype with two fields of the same name. */
  predicate DistinctNames(fields: seq<Field>)
  {
    forall i, j :: 0 <= i < j < |fields| ==> fields[i].name != fields[j].name
  }
}

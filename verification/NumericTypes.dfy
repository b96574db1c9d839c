/**
 * The type of a numeric array: what its elements are, and how the two parts of complex ones are stored.
 */
module NumericTypes {

  /** The element types that the numeric data class accepts. */
  datatype Element = Float64 | Float32 | UInt64 | UInt32 | UInt16 | UInt8 | Int64 | Int32 | Int16 | Int8 | Bool8

  /** The complexity and complex format bits; a real type has the format bits, too. */
  datatype Format = Format(complex: bool, interleaved: bool)

  /** TYPE_COMPLEX_MULT: the values of an element. */
  function Parts(format: Format): nat {
    if format.complex then 2 else 1
  }

  /** The values of an array. */
  function Values(format: Format, elements: nat): nat {
    if format.complex then elements + elements else elements
  }

  /** Where a part of an element is among the values of an array: the parts one after the other, or side by side. */
  function Part(format: Format, elements: nat, element: nat, part: nat): nat {
    if format.complex && format.interleaved then element * 2 + part else part * elements + element
  }
}

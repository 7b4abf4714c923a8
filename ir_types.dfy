/** The part of LLVM's type system that the two passes inspect. */
module IrTypes {

  const TWO_TO_32: int := 0x1_0000_0000

  const TWO_TO_64: int := 0x1_0000_0000_0000_0000

  /** C++ `uint64_t`. */
  type uint64 = x: int | 0 <= x < TWO_TO_64

  /** C++ `unsigned` / `uint32_t`. */
  type uint32 = x: int | 0 <= x < TWO_TO_32

  /** C++ `int`: a 32-bit two's-complement integer. */
  type int32 = x: int | -0x8000_0000 <= x < 0x8000_0000

  /** The value a C++ `int` takes when it is assigned an unsigned 32-bit value (modulo 2^32). */
  function ToInt32(u: uint32): (i: int32)
    ensures (i - u) % TWO_TO_32 == 0
    ensures u < 0x8000_0000 ==> i == u
  {
    if u < 0x8000_0000 then u else u - TWO_TO_32
  }

  datatype Type =
    | Scalar(name: string)                        // integer, floating-point or void
    | Pointer(pointee: Type, addressSpace: nat)
    | Array(element: Type, length: nat)
    | Struct(name: string, elements: seq<Type>)
    | Function(result: Type, params: seq<Type>)
  {
    /** LLVM's getPointerElementType(): defined on pointers and arrays (sequential types). */
    predicate IsSequential() {
      Pointer? || Array?
    }

    function ElementType(): Type
      requires IsSequential()
    {
      if Pointer? then pointee else element
    }
  }
}

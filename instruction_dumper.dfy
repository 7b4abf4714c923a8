/**
 * The device-side instruction dumper: for one IR instruction it fills in that instruction's
 * LocalValueInfo (its source expression, the statements to emit before it, whether it needs a
 * declaration, and its address space), dispatching on the opcode.
 *
 * Every dump method updates the LocalValueInfo object it is given and is proved against a pure
 * function on InfoState values; the properties of the translation are lemmas about those
 * functions.
 */
module InstructionDumper {
  import opened Outcomes
  import opened IrTypes
  import Decimal

  /** Identity of an IR value (the `llvm::Value *` keys of the value-info map). */
  type ValueId = nat

  /** LLVM's binary operators. */
  datatype BinaryOpcode =
    Add | FAdd | Sub | FSub | Mul | FMul | UDiv | SDiv | FDiv | URem | SRem | FRem
    | Shl | LShr | AShr | And | Or | Xor

  /** The other opcodes the dumper can meet and has no emitter for. */
  datatype OtherOpcode =
    Ret | Br | Switch | PHI | Load | Call | ICmp | FCmp | Select | GetElementPtr | ExtractValue
    | Trunc | ZExt | SExt | FPTrunc | FPExt | FPToUI | FPToSI | UIToFP | SIToFP
    | PtrToInt | IntToPtr | BitCast | AddrSpaceCast | Unreachable

  /** Operand 0 of an insertvalue: `undef` or a value that has a LocalValueInfo. */
  datatype Aggregate = Undef | Defined(id: ValueId)

  datatype Instruction =
    | BinaryOperator(opcode: BinaryOpcode, lhs: ValueId, rhs: ValueId)
    | Store(stored: ValueId, pointer: ValueId)
    | Alloca
    | InsertValue(aggregate: Aggregate, inserted: ValueId, indices: seq<uint32>, ty: Type)
    | Other(otherOpcode: OtherOpcode)
  {
    /** The values this instruction reads through the value-info map. */
    function Operands(): set<ValueId> {
      match this
      case BinaryOperator(_, lhs, rhs) => {lhs, rhs}
      case Store(stored, pointer) => {stored, pointer}
      case Alloca => {}
      case InsertValue(aggregate, inserted, _, _) =>
        if aggregate.Defined? then {aggregate.id, inserted} else {inserted}
      case Other(_) => {}
    }
  }

  datatype Error =
    | UnknownOpcode           // runtime_error "unknown opcode"
    | TypeNotImplemented      // runtime_error "type not implemented in insertvalue"
    | MissingValueInfo(id: ValueId)  // std::map::at finds no entry (std::out_of_range)
    | StructIndexOutOfRange   // StructType::getElementType is given an index past the last field

  /**
   * Collaborators whose definitions are not part of this model, as uninterpreted functions:
   * stripOuterParams, TypeDumper::dumpType, getName(StructType *) and the address space that
   * LocalValueInfo::setAddressSpaceFrom reads off a value.
   */
  datatype Helpers = Helpers(
    stripOuterParams: string -> string,
    dumpType: Type -> string,
    structName: Type -> string,
    addressSpaceFrom: ValueId -> int)

  /** The fields of a LocalValueInfo that the dumper writes. */
  datatype InfoState = InfoState(
    expression: string,
    inlineCl: seq<string>,
    toBeDeclared: bool,
    addressSpace: int)

  const FLOAT4_NAME: string := "struct.float4"

  // ---------------------------------------------------------------------------------------
  // The opcode-to-symbol table

  /** The C operator that runGeneration passes to dumpBinaryOperator, if the opcode has a case. */
  function BinarySymbol(op: BinaryOpcode): Option<string> {
    match op
    case FAdd => Some("+")
    case FSub => Some("-")
    case FMul => Some("*")
    case FDiv => Some("/")
    case Sub => Some("-")
    case Add => Some("+")
    case Mul => Some("*")
    case SDiv => Some("/")
    case UDiv => Some("/")
    case SRem => Some("%")
    case And => Some("&")
    case Or => Some("|")
    case Xor => Some("^")
    case LShr => Some(">>")
    case Shl => Some("<<")
    case AShr => Some(">>")
    case URem => None
    case FRem => None
  }

  /** The same table read from the symbol side: which opcodes print as `sym`. */
  function OpcodesPrintedAs(sym: string): set<BinaryOpcode> {
    if sym == "+" then {Add, FAdd}
    else if sym == "-" then {Sub, FSub}
    else if sym == "*" then {Mul, FMul}
    else if sym == "/" then {FDiv, SDiv, UDiv}
    else if sym == "%" then {SRem}
    else if sym == "&" then {And}
    else if sym == "|" then {Or}
    else if sym == "^" then {Xor}
    else if sym == "<<" then {Shl}
    else if sym == ">>" then {LShr, AShr}
    else {}
  }

  lemma SymbolTable(op: BinaryOpcode, sym: string)
    ensures BinarySymbol(op) == Some(sym) <==> op in OpcodesPrintedAs(sym)
    ensures BinarySymbol(op) == None <==> op == URem || op == FRem
  {
  }

  // ---------------------------------------------------------------------------------------
  // The insertvalue index walk

  /** `easycl::toString(idx)` where `idx` is the `int` that the unsigned index was copied into. */
  function IndexText(idx: uint32): string {
    Decimal.IntToString(ToInt32(idx))
  }

  lemma SingleDigitIndexText(d: uint32)
    requires d < 10
    ensures IndexText(d) == ["0123456789"[d]]
  {
  }

  /** One iteration of dumpInsertValue's loop: the new left-hand side and the new current type. */
  function WalkStep(lhs: string, t: Type, idx: uint32, first: bool, h: Helpers): Result<(string, Type), Error> {
    if t.IsSequential() then
      var base := if first && t.ElementType().Array? then "(&" + lhs + ")" else lhs;
      Ok((base + "[" + IndexText(idx) + "]", t.ElementType()))
    else if t.Struct? then
      if idx >= |t.elements| then Err(StructIndexOutOfRange)
      else if h.structName(t) == FLOAT4_NAME then
        var castType := Pointer(t.elements[idx], 0);
        Ok(("((" + h.dumpType(castType) + ")&" + lhs + ")" + "[" + IndexText(idx) + "]", t.elements[idx]))
      else
        Ok((lhs + ".f" + IndexText(idx), t.elements[idx]))
    else
      Err(TypeNotImplemented)
  }

  /** The whole loop, indices left to right; `first` holds while the loop counter is 0. */
  function Walk(lhs: string, t: Type, indices: seq<uint32>, first: bool, h: Helpers): (r: Result<(string, Type), Error>)
    ensures r.Err? ==> r.error == TypeNotImplemented || r.error == StructIndexOutOfRange
    decreases |indices|
  {
    if |indices| == 0 then Ok((lhs, t))
    else
      match WalkStep(lhs, t, indices[0], first, h)
      case Err(e) => Err(e)
      case Ok((lhs', t')) => Walk(lhs', t', indices[1..], false, h)
  }

  /** The index paths the walk accepts, stated on types alone. */
  predicate SupportedPath(t: Type, indices: seq<uint32>)
    decreases |indices|
  {
    |indices| == 0 ||
    (t.IsSequential() && SupportedPath(t.ElementType(), indices[1..])) ||
    (t.Struct? && indices[0] < |t.elements| && SupportedPath(t.elements[indices[0]], indices[1..]))
  }

  lemma {:induction false} WalkSucceedsIffSupported(lhs: string, t: Type, indices: seq<uint32>, first: bool, h: Helpers)
    ensures Walk(lhs, t, indices, first, h).Ok? <==> SupportedPath(t, indices)
    decreases |indices|
  {
    if |indices| > 0 {
      match WalkStep(lhs, t, indices[0], first, h)
      case Err(_) =>
      case Ok((lhs', t')) =>
        WalkSucceedsIffSupported(lhs', t', indices[1..], false, h);
    }
  }

  /** Walking `p + q` is walking `p` and then walking `q` from where `p` stopped. */
  lemma {:induction false} WalkConcat(lhs: string, t: Type, p: seq<uint32>, q: seq<uint32>, first: bool, h: Helpers)
    ensures Walk(lhs, t, p + q, first, h) ==
      match Walk(lhs, t, p, first, h)
      case Err(e) => Err(e)
      case Ok((lhs', t')) => Walk(lhs', t', q, first && |p| == 0, h)
    decreases |p|
  {
    if |p| > 0 {
      assert (p + q)[0] == p[0];
      assert (p + q)[1..] == p[1..] + q;
      match WalkStep(lhs, t, p[0], first, h)
      case Err(_) =>
      case Ok((lhs', t')) =>
        WalkConcat(lhs', t', p[1..], q, false, h);
    } else {
      assert p + q == q;
    }
  }

  /** Every index steps into a struct that is not `struct.float4`. */
  predicate GenericStructPath(t: Type, indices: seq<uint32>, h: Helpers)
    decreases |indices|
  {
    |indices| == 0 ||
    (t.Struct? && indices[0] < |t.elements| && h.structName(t) != FLOAT4_NAME &&
     GenericStructPath(t.elements[indices[0]], indices[1..], h))
  }

  function FieldSuffix(indices: seq<uint32>): string
    decreases |indices|
  {
    if |indices| == 0 then "" else ".f" + IndexText(indices[0]) + FieldSuffix(indices[1..])
  }

  /** Through generic structs the walk only appends `.f<idx>` per index. */
  lemma {:induction false} GenericStructFieldAccess(lhs: string, t: Type, indices: seq<uint32>, first: bool, h: Helpers)
    requires GenericStructPath(t, indices, h)
    ensures Walk(lhs, t, indices, first, h).Ok?
    ensures Walk(lhs, t, indices, first, h).value.0 == lhs + FieldSuffix(indices)
    decreases |indices|
  {
    if |indices| > 0 {
      var lhs' := lhs + ".f" + IndexText(indices[0]);
      GenericStructFieldAccess(lhs', t.elements[indices[0]], indices[1..], false, h);
      assert lhs' + FieldSuffix(indices[1..]) == lhs + FieldSuffix(indices);
    }
  }

  /** Every index steps through a pointer or an array. */
  predicate SequentialPath(t: Type, indices: seq<uint32>)
    decreases |indices|
  {
    |indices| == 0 || (t.IsSequential() && SequentialPath(t.ElementType(), indices[1..]))
  }

  function BracketSuffix(indices: seq<uint32>): string
    decreases |indices|
  {
    if |indices| == 0 then "" else "[" + IndexText(indices[0]) + "]" + BracketSuffix(indices[1..])
  }

  /**
   * Through pointers and arrays the walk appends `[<idx>]` per index, and wraps the base as
   * `(&base)` only at the first index and only when that index leads into an array.
   */
  lemma {:induction false} SequentialIndexing(lhs: string, t: Type, indices: seq<uint32>, first: bool, h: Helpers)
    requires SequentialPath(t, indices)
    ensures Walk(lhs, t, indices, first, h).Ok?
    ensures Walk(lhs, t, indices, first, h).value.0 ==
      (if first && |indices| > 0 && t.ElementType().Array? then "(&" + lhs + ")" else lhs)
      + BracketSuffix(indices)
    decreases |indices|
  {
    if |indices| > 0 {
      var base := if first && t.ElementType().Array? then "(&" + lhs + ")" else lhs;
      var lhs' := base + "[" + IndexText(indices[0]) + "]";
      assert WalkStep(lhs, t, indices[0], first, h) == Ok((lhs', t.ElementType()));
      SequentialIndexing(lhs', t.ElementType(), indices[1..], false, h);
      assert BracketSuffix(indices) == "[" + IndexText(indices[0]) + "]" + BracketSuffix(indices[1..]);
      AppendBracket(base, IndexText(indices[0]), BracketSuffix(indices[1..]));
    }
  }

  lemma AppendBracket(base: string, idx: string, rest: string)
    ensures base + "[" + idx + "]" + rest == base + ("[" + idx + "]" + rest)
  {
  }

  lemma NestedStructExample(h: Helpers)
    requires h.structName(Struct("struct.S", [Struct("struct.T", [Scalar("i32"), Scalar("float")])])) != FLOAT4_NAME
    requires h.structName(Struct("struct.T", [Scalar("i32"), Scalar("float")])) != FLOAT4_NAME
    ensures Walk("s", Struct("struct.S", [Struct("struct.T", [Scalar("i32"), Scalar("float")])]), [0, 1], true, h)
         == Ok(("s.f0.f1", Scalar("float")))
  {
    SingleDigitIndexText(0);
    SingleDigitIndexText(1);
    assert "s" + ".f" + "0" == "s.f0";
    assert "s.f0" + ".f" + "1" == "s.f0.f1";
  }

  lemma ArrayOfArraysExample(h: Helpers)
    ensures Walk("m", Array(Array(Scalar("float"), 4), 4), [1, 2], true, h) == Ok(("(&m)[1][2]", Scalar("float")))
  {
    SingleDigitIndexText(1);
    SingleDigitIndexText(2);
    assert "(&" + "m" + ")" + "[" + "1" + "]" == "(&m)[1]";
    assert "(&m)[1]" + "[" + "2" + "]" == "(&m)[1][2]";
  }

  /**
   * An index into `struct.float4` casts the base to a pointer to the indexed element's type and
   * subscripts it, whatever the base, the element types and the position of the index.
   */
  lemma Float4ElementAccess(lhs: string, t: Type, idx: uint32, first: bool, h: Helpers)
    requires t.Struct? && h.structName(t) == FLOAT4_NAME && idx < |t.elements|
    ensures Walk(lhs, t, [idx], first, h)
         == Ok(("((" + h.dumpType(Pointer(t.elements[idx], 0)) + ")&" + lhs + ")[" + IndexText(idx) + "]", t.elements[idx]))
  {
    var d := h.dumpType(Pointer(t.elements[idx], 0));
    var lhs' := "((" + d + ")&" + lhs + ")" + "[" + IndexText(idx) + "]";
    assert WalkStep(lhs, t, idx, first, h) == Ok((lhs', t.elements[idx]));
    assert [idx][1..] == [];
    assert lhs' == "((" + d + ")&" + lhs + ")[" + IndexText(idx) + "]";
  }

  /** An index into a type that is neither a pointer, an array nor a struct throws "type not implemented". */
  lemma UnsupportedTypeRejected(lhs: string, t: Type, indices: seq<uint32>, first: bool, h: Helpers)
    requires !t.IsSequential() && !t.Struct? && |indices| > 0
    ensures Walk(lhs, t, indices, first, h) == Err(TypeNotImplemented)
  {
  }

  /** An index past the last field of a struct is rejected before any field is named. */
  lemma StructIndexPastEnd(lhs: string, t: Type, indices: seq<uint32>, first: bool, h: Helpers)
    requires t.Struct? && |indices| > 0 && indices[0] >= |t.elements|
    ensures Walk(lhs, t, indices, first, h) == Err(StructIndexOutOfRange)
  {
  }

  lemma Float4Example(h: Helpers)
    requires h.structName(Struct("struct.float4", [Scalar("float"), Scalar("float"), Scalar("float"), Scalar("float")])) == FLOAT4_NAME
    ensures Walk("v", Struct("struct.float4", [Scalar("float"), Scalar("float"), Scalar("float"), Scalar("float")]), [2], true, h)
         == Ok(("((" + h.dumpType(Pointer(Scalar("float"), 0)) + ")&v)[2]", Scalar("float")))
  {
    Float4ElementAccess("v", Struct("struct.float4", [Scalar("float"), Scalar("float"), Scalar("float"), Scalar("float")]), 2, true, h);
    SingleDigitIndexText(2);
    var d := h.dumpType(Pointer(Scalar("float"), 0));
    assert "((" + d + ")&" + "v" + ")[" + "2" + "]" == "((" + d + ")&v)[2]";
  }

  lemma ScalarRejected(h: Helpers)
    ensures Walk("x", Scalar("i32"), [0], true, h) == Err(TypeNotImplemented)
  {
    UnsupportedTypeRejected("x", Scalar("i32"), [0], true, h);
  }

  // ---------------------------------------------------------------------------------------
  // What each emitter does to the LocalValueInfo, as functions of the old state and of the
  // operand expressions found in the value-info map

  function BinaryOperatorSpec(s: InfoState, exprs: map<ValueId, string>, lhs: ValueId, rhs: ValueId, sym: string): (Outcome<Error>, InfoState) {
    if lhs !in exprs then (Fail(MissingValueInfo(lhs)), s)
    else if rhs !in exprs then (Fail(MissingValueInfo(rhs)), s)
    else (Pass, s.(expression := exprs[lhs] + " " + sym + " " + exprs[rhs], addressSpace := 0))
  }

  /** The address space is taken from the pointer before either operand is looked up. */
  function StoreSpec(s: InfoState, exprs: map<ValueId, string>, stored: ValueId, pointer: ValueId, h: Helpers): (Outcome<Error>, InfoState) {
    var s' := s.(addressSpace := h.addressSpaceFrom(pointer));
    if stored !in exprs then (Fail(MissingValueInfo(stored)), s')
    else if pointer !in exprs then (Fail(MissingValueInfo(pointer)), s')
    else (Pass, s'.(inlineCl := s.inlineCl + [exprs[pointer] + "[0] = " + h.stripOuterParams(exprs[stored])]))
  }

  function AllocaSpec(s: InfoState, name: string): (Outcome<Error>, InfoState) {
    (Pass, s.(expression := name))
  }

  /**
   * Both operands are looked up first; an undef base then marks the value for declaration and
   * names it, before the walk can fail.
   */
  function InsertValueSpec(s: InfoState, exprs: map<ValueId, string>, name: string, aggregate: Aggregate,
                           inserted: ValueId, indices: seq<uint32>, ty: Type, h: Helpers): (Outcome<Error>, InfoState) {
    if aggregate.Defined? && aggregate.id !in exprs then (Fail(MissingValueInfo(aggregate.id)), s)
    else if inserted !in exprs then (Fail(MissingValueInfo(inserted)), s)
    else
      var s' := if aggregate.Undef? then s.(toBeDeclared := true, expression := name) else s;
      var incoming := if aggregate.Undef? then name else exprs[aggregate.id];
      match Walk(incoming, ty, indices, true, h)
      case Err(e) => (Fail(e), s')
      case Ok((lhs, _)) => (Pass, s'.(inlineCl := s.inlineCl + [lhs + " = " + exprs[inserted]], expression := incoming))
  }

  /** runGeneration: the opcode dispatch. */
  function Generate(inst: Instruction, s: InfoState, exprs: map<ValueId, string>, name: string, h: Helpers): (Outcome<Error>, InfoState) {
    match inst
    case BinaryOperator(op, lhs, rhs) =>
      if BinarySymbol(op).Some? then BinaryOperatorSpec(s, exprs, lhs, rhs, BinarySymbol(op).value)
      else (Fail(UnknownOpcode), s)
    case Store(stored, pointer) => StoreSpec(s, exprs, stored, pointer, h)
    case Alloca => AllocaSpec(s, name)
    case InsertValue(aggregate, inserted, indices, ty) => InsertValueSpec(s, exprs, name, aggregate, inserted, indices, ty, h)
    case Other(_) => (Fail(UnknownOpcode), s)
  }

  // ---------------------------------------------------------------------------------------
  // Properties of the translation

  lemma BinaryOperatorEmission(op: BinaryOpcode, lhs: ValueId, rhs: ValueId, s: InfoState, exprs: map<ValueId, string>, name: string, h: Helpers)
    requires BinarySymbol(op).Some? && lhs in exprs && rhs in exprs
    ensures Generate(BinaryOperator(op, lhs, rhs), s, exprs, name, h).0 == Pass
    ensures Generate(BinaryOperator(op, lhs, rhs), s, exprs, name, h).1 ==
      InfoState(exprs[lhs] + " " + BinarySymbol(op).value + " " + exprs[rhs], s.inlineCl, s.toBeDeclared, 0)
  {
  }

  lemma AddExample(s: InfoState, h: Helpers)
    ensures Generate(BinaryOperator(Add, 1, 2), s, map[1 := "x", 2 := "y"], "v3", h).1.expression == "x + y"
  {
  }

  /** Exactly the instructions without an emitter fail with "unknown opcode", and they change nothing. */
  lemma UnknownOpcodeIff(inst: Instruction, s: InfoState, exprs: map<ValueId, string>, name: string, h: Helpers)
    ensures Generate(inst, s, exprs, name, h).0 == Fail(UnknownOpcode) <==>
      inst.Other? || (inst.BinaryOperator? && BinarySymbol(inst.opcode).None?)
    ensures Generate(inst, s, exprs, name, h).0 == Fail(UnknownOpcode) ==> Generate(inst, s, exprs, name, h).1 == s
  {
  }

  lemma StoreEmission(stored: ValueId, pointer: ValueId, s: InfoState, exprs: map<ValueId, string>, name: string, h: Helpers)
    requires stored in exprs && pointer in exprs
    ensures Generate(Store(stored, pointer), s, exprs, name, h).0 == Pass
    ensures Generate(Store(stored, pointer), s, exprs, name, h).1 ==
      InfoState(s.expression, s.inlineCl + [exprs[pointer] + "[0] = " + h.stripOuterParams(exprs[stored])],
                s.toBeDeclared, h.addressSpaceFrom(pointer))
  {
  }

  lemma StoreExample(s: InfoState, h: Helpers)
    requires h.stripOuterParams("(1.0f)") == "1.0f"
    ensures Generate(Store(1, 2), s, map[1 := "(1.0f)", 2 := "out"], "v3", h).1.inlineCl == s.inlineCl + ["out[0] = 1.0f"]
  {
    assert "out" + "[0] = " + "1.0f" == "out[0] = 1.0f";
  }

  lemma AllocaEmission(s: InfoState, exprs: map<ValueId, string>, name: string, h: Helpers)
    ensures Generate(Alloca, s, exprs, name, h) == (Pass, InfoState(name, s.inlineCl, s.toBeDeclared, s.addressSpace))
  {
  }

  /** An undef base is named after the value itself and marked for declaration; operand 0 is never read. */
  lemma InsertValueUndefBase(inserted: ValueId, indices: seq<uint32>, ty: Type, s: InfoState,
                             exprs: map<ValueId, string>, exprs': map<ValueId, string>, name: string, h: Helpers)
    requires inserted in exprs && inserted in exprs' && exprs[inserted] == exprs'[inserted]
    ensures Generate(InsertValue(Undef, inserted, indices, ty), s, exprs, name, h)
         == Generate(InsertValue(Undef, inserted, indices, ty), s, exprs', name, h)
    ensures Generate(InsertValue(Undef, inserted, indices, ty), s, exprs, name, h).1.toBeDeclared
    ensures Generate(InsertValue(Undef, inserted, indices, ty), s, exprs, name, h).1.expression == name
  {
  }

  /** One assignment to the walked left-hand side; the value's own expression stays the incoming base. */
  lemma InsertValueEmission(aggregate: Aggregate, inserted: ValueId, indices: seq<uint32>, ty: Type, s: InfoState,
                            exprs: map<ValueId, string>, name: string, h: Helpers, base: string)
    requires aggregate.Defined? ==> aggregate.id in exprs
    requires inserted in exprs
    requires base == if aggregate.Undef? then name else exprs[aggregate.id]
    requires Walk(base, ty, indices, true, h).Ok?
    ensures Generate(InsertValue(aggregate, inserted, indices, ty), s, exprs, name, h).0 == Pass
    ensures Generate(InsertValue(aggregate, inserted, indices, ty), s, exprs, name, h).1 ==
      InfoState(base, s.inlineCl + [Walk(base, ty, indices, true, h).value.0 + " = " + exprs[inserted]],
                aggregate.Undef? || s.toBeDeclared, s.addressSpace)
  {
  }

  lemma InsertValueNestedStructExample(s: InfoState, h: Helpers)
    requires h.structName(Struct("struct.S", [Struct("struct.T", [Scalar("i32"), Scalar("float")])])) != FLOAT4_NAME
    requires h.structName(Struct("struct.T", [Scalar("i32"), Scalar("float")])) != FLOAT4_NAME
    ensures Generate(InsertValue(Defined(1), 2, [0, 1], Struct("struct.S", [Struct("struct.T", [Scalar("i32"), Scalar("float")])])),
                     s, map[1 := "s", 2 := "v"], "v3", h)
         == (Pass, s.(inlineCl := s.inlineCl + ["s.f0.f1 = v"], expression := "s"))
  {
    NestedStructExample(h);
    assert "s.f0.f1" + " = " + "v" == "s.f0.f1 = v";
  }

  /** A missing operand info aborts the step, and no expression or statement is produced. */
  lemma MissingOperandAborts(inst: Instruction, v: ValueId, s: InfoState, exprs: map<ValueId, string>, name: string, h: Helpers)
    requires v in inst.Operands() && v !in exprs
    ensures Generate(inst, s, exprs, name, h).0.Fail?
    ensures Generate(inst, s, exprs, name, h).1.expression == s.expression
    ensures Generate(inst, s, exprs, name, h).1.inlineCl == s.inlineCl
    ensures Generate(inst, s, exprs, name, h).1.toBeDeclared == s.toBeDeclared
  {
  }

  /**
   * An emitter only appends to the inline statements, at most one, and it appends one exactly when
   * a store or an insertvalue succeeds.
   */
  lemma InlineStatementsAppendOnly(inst: Instruction, s: InfoState, exprs: map<ValueId, string>, name: string, h: Helpers)
    ensures s.inlineCl <= Generate(inst, s, exprs, name, h).1.inlineCl
    ensures |Generate(inst, s, exprs, name, h).1.inlineCl| <= |s.inlineCl| + 1
    ensures |Generate(inst, s, exprs, name, h).1.inlineCl| == |s.inlineCl| + 1 <==>
      Generate(inst, s, exprs, name, h).0 == Pass && (inst.Store? || inst.InsertValue?)
  {
  }

  /** Only an insertvalue over undef asks for a declaration. */
  lemma DeclarationOnlyForUndefInsert(inst: Instruction, s: InfoState, exprs: map<ValueId, string>, name: string, h: Helpers)
    requires !s.toBeDeclared
    ensures Generate(inst, s, exprs, name, h).1.toBeDeclared ==>
      inst.InsertValue? && inst.aggregate.Undef? && inst.inserted in exprs
  {
  }

  // ---------------------------------------------------------------------------------------
  // The objects

  class LocalValueInfo {
    const value: ValueId
    const name: string
    var expression: string
    var inlineCl: seq<string>
    var toBeDeclared: bool
    var addressSpace: int

    constructor (value: ValueId, name: string, initial: InfoState)
      ensures this.value == value && this.name == name && State() == initial
    {
      this.value := value;
      this.name := name;
      expression := initial.expression;
      inlineCl := initial.inlineCl;
      toBeDeclared := initial.toBeDeclared;
      addressSpace := initial.addressSpace;
    }

    function State(): InfoState
      reads this
    {
      InfoState(expression, inlineCl, toBeDeclared, addressSpace)
    }
  }

  class NewInstructionDumper {
    /** The value-info map, keyed by value. */
    const localValueInfos: map<ValueId, LocalValueInfo>
    /** What each instruction-valued id of the function computes. */
    const instructions: map<ValueId, Instruction>
    const helpers: Helpers
    var needDependencies: bool

    constructor (localValueInfos: map<ValueId, LocalValueInfo>, instructions: map<ValueId, Instruction>, helpers: Helpers)
      ensures this.localValueInfos == localValueInfos && this.instructions == instructions && this.helpers == helpers
      ensures (forall k :: k in localValueInfos ==> localValueInfos[k].value == k) ==> Valid()
    {
      this.localValueInfos := localValueInfos;
      this.instructions := instructions;
      this.helpers := helpers;
      needDependencies := false;
    }

    /** Each entry of the map is the info of the value it is filed under. */
    ghost predicate Valid() {
      forall k :: k in localValueInfos ==> localValueInfos[k].value == k
    }

    /** The expression of every value that has an info. */
    function Expressions(): map<ValueId, string>
      reads localValueInfos.Values
    {
      map k | k in localValueInfos :: localValueInfos[k].expression
    }

    method DumpStore(info: LocalValueInfo, stored: ValueId, pointer: ValueId) returns (r: Outcome<Error>)
      modifies info
      ensures (r, info.State()) == StoreSpec(old(info.State()), old(Expressions()), stored, pointer, helpers)
    {
      info.addressSpace := helpers.addressSpaceFrom(pointer);
      // copyAddressSpace(stored, pointer) acts on IR values this model does not hold.
      if stored !in localValueInfos {
        return Fail(MissingValueInfo(stored));
      }
      var op0info := localValueInfos[stored];
      if pointer !in localValueInfos {
        return Fail(MissingValueInfo(pointer));
      }
      var op1info := localValueInfos[pointer];
      var rhs := op0info.expression;
      rhs := helpers.stripOuterParams(rhs);
      var inlinecode := op1info.expression + "[0] = " + rhs;
      info.inlineCl := info.inlineCl + [inlinecode];
      r := Pass;
    }

    /** The AllocaInfo record the source builds here is never handed to the declaration list. */
    method DumpAlloca(info: LocalValueInfo) returns (r: Outcome<Error>)
      modifies info
      ensures (r, info.State()) == AllocaSpec(old(info.State()), info.name)
    {
      var name := info.name;
      info.expression := name;
      r := Pass;
    }

    method DumpInsertValue(info: LocalValueInfo, aggregate: Aggregate, inserted: ValueId, indices: seq<uint32>, ty: Type)
      returns (r: Outcome<Error>)
      requires Valid()
      requires inserted != info.value
      modifies info
      ensures (r, info.State()) == InsertValueSpec(old(info.State()), old(Expressions()), info.name, aggregate, inserted, indices, ty, helpers)
    {
      var incomingIsUndef := false;
      var op0info: LocalValueInfo? := null;
      if aggregate.Undef? {
        incomingIsUndef := true;
      } else {
        if aggregate.id !in localValueInfos {
          return Fail(MissingValueInfo(aggregate.id));
        }
        op0info := localValueInfos[aggregate.id];
      }
      if inserted !in localValueInfos {
        return Fail(MissingValueInfo(inserted));
      }
      var op1info := localValueInfos[inserted];
      assert op1info != info;
      ghost var insertedExpr := op1info.expression;

      var lhs := "";
      var currentType := ty;
      var incomingOperand := "";
      if incomingIsUndef {
        info.toBeDeclared := true;
        info.expression := info.name;
        incomingOperand := info.expression;
      } else {
        incomingOperand := op0info.expression;
      }
      lhs := lhs + incomingOperand;
      assert lhs == incomingOperand;
      ghost var walked := info.State();
      for d := 0 to |indices|
        invariant Walk(incomingOperand, ty, indices, true, helpers) == Walk(lhs, currentType, indices[d..], d == 0, helpers)
        invariant info.State() == walked
      {
        var idx := indices[d];
        assert indices[d..][0] == idx && indices[d..][1..] == indices[d + 1..];
        var newType: Type;
        if currentType.IsSequential() {
          if d == 0 {
            if currentType.ElementType().Array? {
              lhs := "(&" + lhs + ")";
            }
          }
          lhs := lhs + "[" + IndexText(idx) + "]";
          newType := currentType.ElementType();
        } else if currentType.Struct? {
          if idx >= |currentType.elements| {
            return Fail(StructIndexOutOfRange);
          }
          var structName := helpers.structName(currentType);
          if structName == FLOAT4_NAME {
            var elementType := currentType.elements[idx];
            var castType := Pointer(elementType, 0);
            newType := elementType;
            lhs := "((" + helpers.dumpType(castType) + ")&" + lhs + ")";
            lhs := lhs + "[" + IndexText(idx) + "]";
          } else {
            var elementType := currentType.elements[idx];
            lhs := lhs + ".f" + IndexText(idx);
            newType := elementType;
          }
        } else {
          return Fail(TypeNotImplemented);
        }
        currentType := newType;
      }
      var updateline := lhs + " = " + op1info.expression;
      info.inlineCl := info.inlineCl + [updateline];
      info.expression := incomingOperand;
      r := Pass;
    }

    method DumpBinaryOperator(info: LocalValueInfo, lhs: ValueId, rhs: ValueId, opstring: string) returns (r: Outcome<Error>)
      modifies info
      ensures (r, info.State()) == BinaryOperatorSpec(old(info.State()), old(Expressions()), lhs, rhs, opstring)
    {
      var gencode := "";
      if lhs !in localValueInfos {
        return Fail(MissingValueInfo(lhs));
      }
      var op1info := localValueInfos[lhs];
      gencode := gencode + op1info.expression + " ";
      assert gencode == op1info.expression + " ";
      gencode := gencode + opstring + " ";
      if rhs !in localValueInfos {
        return Fail(MissingValueInfo(rhs));
      }
      var op2info := localValueInfos[rhs];
      gencode := gencode + op2info.expression;
      info.expression := gencode;
      info.addressSpace := 0;
      r := Pass;
    }

    method RunGeneration(info: LocalValueInfo) returns (r: Outcome<Error>)
      requires Valid()
      requires info.value in instructions
      requires info.value !in instructions[info.value].Operands()
      modifies this, info
      ensures !needDependencies
      ensures (r, info.State()) ==
        Generate(instructions[info.value], old(info.State()), old(Expressions()), info.name, helpers)
    {
      needDependencies := false;
      var instruction := instructions[info.value];
      match instruction
      case BinaryOperator(opcode, lhs, rhs) =>
        match opcode {
          case FAdd => r := DumpBinaryOperator(info, lhs, rhs, "+");
          case FSub => r := DumpBinaryOperator(info, lhs, rhs, "-");
          case FMul => r := DumpBinaryOperator(info, lhs, rhs, "*");
          case FDiv => r := DumpBinaryOperator(info, lhs, rhs, "/");
          case Sub => r := DumpBinaryOperator(info, lhs, rhs, "-");
          case Add => r := DumpBinaryOperator(info, lhs, rhs, "+");
          case Mul => r := DumpBinaryOperator(info, lhs, rhs, "*");
          case SDiv => r := DumpBinaryOperator(info, lhs, rhs, "/");
          case UDiv => r := DumpBinaryOperator(info, lhs, rhs, "/");
          case SRem => r := DumpBinaryOperator(info, lhs, rhs, "%");
          case And => r := DumpBinaryOperator(info, lhs, rhs, "&");
          case Or => r := DumpBinaryOperator(info, lhs, rhs, "|");
          case Xor => r := DumpBinaryOperator(info, lhs, rhs, "^");
          case LShr => r := DumpBinaryOperator(info, lhs, rhs, ">>");
          case Shl => r := DumpBinaryOperator(info, lhs, rhs, "<<");
          case AShr => r := DumpBinaryOperator(info, lhs, rhs, ">>");
          case URem => r := Fail(UnknownOpcode);
          case FRem => r := Fail(UnknownOpcode);
        }
      case InsertValue(aggregate, inserted, indices, ty) =>
        r := DumpInsertValue(info, aggregate, inserted, indices, ty);
      case Store(stored, pointer) =>
        r := DumpStore(info, stored, pointer);
      case Alloca =>
        r := DumpAlloca(info);
      case Other(_) =>
        r := Fail(UnknownOpcode);
    }
  }
}

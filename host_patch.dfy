/**
 * The host-side patcher: it scans the host function that launches a kernel, collects the
 * kernel's name, parameter types, argument values and launch dimensions from the
 * CUDA-runtime calls, then deletes the cudaLaunch calls and replaces the cudaSetupArgument
 * and cudaConfigureCall calls by the constant 0.
 *
 * The scan and the two commit passes are methods over a HostFunction object and a
 * LaunchCallInfo object; each is proved against a pure function (Scan, EraseAll,
 * ReplaceAllWithZero, PatchSpec), and the properties of the patch are lemmas about those
 * functions (module LaunchLemmas).
 */
module HostPatch {
  import opened Outcomes
  import opened IrTypes
  import Decimal

  // ---------------------------------------------------------------------------------------
  // The IR the patcher reads

  /** The kinds of LLVM value the patcher looks into. */
  datatype Value =
    | ConstantInt(zext: uint64)                // getZExtValue() of an integer constant
    | ConstantExpr(operand0: Value)            // operand 0 of getAsInstruction()
    | Global(name: string, valueType: Type)    // a function or global; its type is a pointer to valueType
    | Instruction(name: string, operands: seq<Value>, users: seq<User>)
    | Argument(name: string)

  /** A user of an instruction: a store (with the value it stores) or anything else. */
  datatype User = StoreUser(stored: Value) | OtherUser

  /** What getName() returns for a value; constants have no name. */
  function NameOf(v: Value): string {
    match v
    case Global(n, _) => n
    case Instruction(n, _, _) => n
    case Argument(n) => n
    case _ => ""
  }

  /** The function a call calls directly, if getCalledFunction() finds one; the name may be empty. */
  datatype Callee = Callee(name: string)

  datatype InstKind =
    | Call(callee: Option<Callee>, args: seq<Value>)
    | NonCall

  /**
   * One instruction of a host function, in program order. `id` is its identity; `useCount`
   * is the number of its uses, which the patch itself does not change (it only erases calls
   * whose use lists it requires to be empty).
   */
  datatype Inst = Inst(id: nat, kind: InstKind, useCount: nat)

  datatype Error =
    | CannotEraseUsed        // runtime_error "cannot erase used instructions"
    | SharedMemoryNotZero    // cudaConfigureCall with a non-zero shared-memory size
    | MissingOperand         // an operand index past the last operand
    | NotAConstantInt        // cast<ConstantInt> given a value that is not an integer constant
    | NotAnInstruction       // dyn_cast<Instruction> yields null and the result is dereferenced

  const LAUNCH: string := "cudaLaunch"
  const SETUP_ARGUMENT: string := "cudaSetupArgument"
  const CONFIGURE_CALL: string := "cudaConfigureCall"
  const PATCHED_FUNCTION: string := "_Z14launchSetValuePfif"

  /** The fields of a LaunchCallInfo, as a value. */
  datatype LaunchDescriptor = LaunchDescriptor(
    kernelName: string,
    callTypes: seq<Type>,
    callValues: seq<Value>,
    grid: seq<int>,
    block: seq<int>)

  /** A freshly constructed LaunchCallInfo. */
  const EMPTY_DESCRIPTOR: LaunchDescriptor := LaunchDescriptor("", [], [], [0, 0, 0], [0, 0, 0])

  // ---------------------------------------------------------------------------------------
  // Reading the launch configuration

  /**
   * The mask `(1 << 31) - 1` keeps the low 31 bits of an unsigned word, which is its residue
   * modulo this constant; `>> 32` is division by TWO_TO_32.
   */
  const X_MODULUS: int := 0x8000_0000

  /** readIntConstant_uint64. */
  function ReadUint64(c: Value): (r: uint64)
    requires c.ConstantInt?
  {
    c.zext
  }

  /** readIntConstant_uint32: the cast to uint32_t keeps only the low 32 bits. */
  function ReadUint32(c: Value): (r: uint32)
    requires c.ConstantInt?
    ensures c.zext < TWO_TO_32 ==> r == c.zext
  {
    c.zext % TWO_TO_32
  }

  /** A packed dim3 x/y word: x is the masked low word, y the high 32 bits. */
  function DecodeXY(packed: uint64): (xy: (uint32, uint32))
    ensures xy.0 < X_MODULUS
  {
    (packed % X_MODULUS, packed / TWO_TO_32)
  }

  /** A uint32_t dimension stored into an `int` array element. */
  function Dim(x: uint32): int32 {
    ToInt32(x)
  }

  /** cast<ConstantInt>(inst->getArgOperand(i)). */
  function ConstantArg(args: seq<Value>, i: nat): (r: Result<Value, Error>)
    ensures r.Ok? <==> i < |args| && args[i].ConstantInt?
    ensures r.Ok? ==> r.value == args[i]
  {
    if i >= |args| then Err(MissingOperand)
    else if !args[i].ConstantInt? then Err(NotAConstantInt)
    else Ok(args[i])
  }

  /**
   * getBlockGridDimensions with its shared-memory check: arguments 0-3 give the grid and
   * block dimensions, and argument 4, the dynamic shared-memory size, must be the constant 0.
   */
  function ConfiguredDescriptor(d: LaunchDescriptor, args: seq<Value>): Result<LaunchDescriptor, Error> {
    var gridXY :- ConstantArg(args, 0);
    var gridZ :- ConstantArg(args, 1);
    var blockXY :- ConstantArg(args, 2);
    var blockZ :- ConstantArg(args, 3);
    var g := DecodeXY(ReadUint64(gridXY));
    var b := DecodeXY(ReadUint64(blockXY));
    var sharedMemory :- ConstantArg(args, 4);
    if ReadUint64(sharedMemory) != 0 then Err(SharedMemoryNotZero)
    else Ok(d.(grid := [Dim(g.0), Dim(g.1), Dim(ReadUint32(gridZ))],
               block := [Dim(b.0), Dim(b.1), Dim(ReadUint32(blockZ))]))
  }

  /**
   * getBlockGridDimensions as the program is built: the shared-memory assert does not compile
   * unless NDEBUG removes it, so argument 4 is never looked at.
   */
  function ConfiguredDescriptorAsBuilt(d: LaunchDescriptor, args: seq<Value>): Result<LaunchDescriptor, Error> {
    var gridXY :- ConstantArg(args, 0);
    var gridZ :- ConstantArg(args, 1);
    var blockXY :- ConstantArg(args, 2);
    var blockZ :- ConstantArg(args, 3);
    var g := DecodeXY(ReadUint64(gridXY));
    var b := DecodeXY(ReadUint64(blockXY));
    Ok(d.(grid := [Dim(g.0), Dim(g.1), Dim(ReadUint32(gridZ))],
          block := [Dim(b.0), Dim(b.1), Dim(ReadUint32(blockZ))]))
  }

  /** The parameter types of the function a value points to, or none if it is no function. */
  function ParamTypes(v: Value): seq<Type> {
    match v
    case Global(_, Function(_, ps)) => ps
    case _ => []
  }

  /** getLaunchTypes: the launched kernel's name and parameter types. */
  function WithLaunchTypes(d: LaunchDescriptor, args: seq<Value>): Result<LaunchDescriptor, Error> {
    if |args| == 0 then Err(MissingOperand)
    else match args[0]
      case ConstantExpr(op) =>
        Ok(d.(callTypes := d.callTypes + ParamTypes(op), kernelName := NameOf(op)))
      case _ => Ok(d)
  }

  /** The values that the store users among `users` write, in use-list order. */
  function StoredValues(users: seq<User>): seq<Value> {
    if |users| == 0 then []
    else
      var last := users[|users| - 1];
      StoredValues(users[..|users| - 1]) + (if last.StoreUser? then [last.stored] else [])
  }

  /** getLaunchArgValue: the values stored into the argument's stack slot. */
  function WithArgValue(d: LaunchDescriptor, args: seq<Value>): Result<LaunchDescriptor, Error> {
    if |args| == 0 then Err(MissingOperand)
    else match args[0]
      case Instruction(_, ops, _) =>
        if |ops| == 0 then Err(MissingOperand)
        else (match ops[0]
          case Instruction(_, _, users) => Ok(d.(callValues := d.callValues + StoredValues(users)))
          case _ => Err(NotAnInstruction))
      case _ => Err(NotAnInstruction)
  }

  // ---------------------------------------------------------------------------------------
  // The scan and the commit passes, as functions

  /** Which CUDA-runtime call an instruction is, if any. */
  datatype ProtocolCall = LaunchCall | SetupArgumentCall | ConfigureCall | NotProtocol

  const PROTOCOL: set<ProtocolCall> := {LaunchCall, SetupArgumentCall, ConfigureCall}

  function Classify(inst: Inst): (c: ProtocolCall)
    ensures c != NotProtocol ==> inst.kind.Call? && inst.kind.callee.Some?
  {
    match inst.kind
    case Call(Some(Callee(n)), _) =>
      if n == "" then NotProtocol
      else if n == LAUNCH then LaunchCall
      else if n == SETUP_ARGUMENT then SetupArgumentCall
      else if n == CONFIGURE_CALL then ConfigureCall
      else NotProtocol
    case _ => NotProtocol
  }

  /** The local state of patchFunction's scan: the two work lists and the LaunchCallInfo. */
  datatype ScanState = ScanState(
    toErase: seq<Inst>,
    toReplace: seq<Inst>,
    printed: seq<LaunchDescriptor>,   // the LaunchCallInfo printed at each cudaLaunch
    current: LaunchDescriptor)

  const SCAN_START: ScanState := ScanState([], [], [], EMPTY_DESCRIPTOR)

  function ScanInst(st: ScanState, inst: Inst): Result<ScanState, Error> {
    match Classify(inst)
    case LaunchCall =>
      var d :- WithLaunchTypes(st.current, inst.kind.args);
      Ok(ScanState(st.toErase + [inst], st.toReplace, st.printed + [d], EMPTY_DESCRIPTOR))
    case SetupArgumentCall =>
      var d :- WithArgValue(st.current, inst.kind.args);
      Ok(st.(toReplace := st.toReplace + [inst], current := d))
    case ConfigureCall =>
      var d :- ConfiguredDescriptor(st.current, inst.kind.args);
      Ok(st.(toReplace := st.toReplace + [inst], current := d))
    case NotProtocol => Ok(st)
  }

  function Scan(st: ScanState, body: seq<Inst>): Result<ScanState, Error>
    decreases |body|
  {
    if |body| == 0 then Ok(st)
    else
      var st' :- ScanInst(st, body[0]);
      Scan(st', body[1..])
  }

  /** The instructions of `body` whose ids are not in `ids`, in order. */
  function Without(body: seq<Inst>, ids: set<nat>): (r: seq<Inst>)
    ensures |r| <= |body|
    ensures forall i :: 0 <= i < |r| ==> r[i] in body && r[i].id !in ids
  {
    if |body| == 0 then []
    else (if body[0].id in ids then [] else [body[0]]) + Without(body[1..], ids)
  }

  /** The erase loop: stops at the first recorded call that still has uses. */
  function EraseAll(body: seq<Inst>, toErase: seq<Inst>): (Outcome<Error>, seq<Inst>)
    decreases |toErase|
  {
    if |toErase| == 0 then (Pass, body)
    else if toErase[0].useCount != 0 then (Fail(CannotEraseUsed), body)
    else EraseAll(Without(body, {toErase[0].id}), toErase[1..])
  }

  /**
   * The replace loop: each recorded call leaves the instruction list, and its uses read the
   * constant i32 0 instead (use lists are not part of this model).
   */
  function ReplaceAllWithZero(body: seq<Inst>, toReplace: seq<Inst>): seq<Inst>
    decreases |toReplace|
  {
    if |toReplace| == 0 then body
    else ReplaceAllWithZero(Without(body, {toReplace[0].id}), toReplace[1..])
  }

  /** The outcome of patchFunction, what it printed, and the function's new instruction list. */
  datatype Patched = Patched(outcome: Outcome<Error>, printed: seq<LaunchDescriptor>, body: seq<Inst>)

  function PatchSpec(body: seq<Inst>): Patched {
    match Scan(SCAN_START, body)
    case Err(e) => Patched(Fail(e), [], body)
    case Ok(st) =>
      var printed := st.printed + [st.current];
      var erased := EraseAll(body, st.toErase);
      if erased.0.Fail? then Patched(erased.0, printed, erased.1)
      else Patched(Pass, printed, ReplaceAllWithZero(erased.1, st.toReplace))
  }

  /** What patchModule does to one function: only PATCHED_FUNCTION is patched. */
  function PatchOne(name: string, body: seq<Inst>): Patched {
    if name == PATCHED_FUNCTION then PatchSpec(body) else Patched(Pass, [], body)
  }

  // ---------------------------------------------------------------------------------------
  // Printing a LaunchCallInfo (operator<<)

  /** The texts of `xs` separated by ", ". */
  function Joined<T>(xs: seq<T>, text: T -> string): string {
    if |xs| == 0 then ""
    else if |xs| == 1 then text(xs[0])
    else Joined(xs[..|xs| - 1], text) + ", " + text(xs[|xs| - 1])
  }

  function IntText(i: int): string {
    Decimal.IntToString(i)
  }

  /** One "value <type>" line per argument value. */
  function ValueLines(vs: seq<Value>, describe: Value -> string): string {
    if |vs| == 0 then ""
    else ValueLines(vs[..|vs| - 1], describe) + "value " + describe(vs[|vs| - 1]) + "\n"
  }

  /**
   * What operator<< writes for a LaunchCallInfo. `printType` is Type::print and `describe`
   * is dumpType of a value's type; neither is part of this model.
   */
  function Render(d: LaunchDescriptor, printType: Type -> string, describe: Value -> string): string {
    "LaunchCallInfo " + d.kernelName + "<<<"
    + "dim3(" + Joined(d.grid, IntText) + ")" + ", "
    + "dim3(" + Joined(d.block, IntText) + ")" + ">>>"
    + "(" + Joined(d.callTypes, printType) + ");\n"
    + ValueLines(d.callValues, describe)
  }

  // ---------------------------------------------------------------------------------------
  // The objects and the methods

  class LaunchCallInfo {
    var kernelName: string
    var callTypes: seq<Type>
    var callValues: seq<Value>
    const grid: array<int>
    const block: array<int>

    ghost predicate Valid()
      reads this
    {
      grid.Length == 3 && block.Length == 3 && grid != block
    }

    function Descriptor(): LaunchDescriptor
      reads this, grid, block
    {
      LaunchDescriptor(kernelName, callTypes, callValues, grid[..], block[..])
    }

    constructor ()
      ensures Valid() && fresh(grid) && fresh(block)
      ensures Descriptor() == EMPTY_DESCRIPTOR
    {
      kernelName := "";
      callTypes := [];
      callValues := [];
      grid := new int[3];
      block := new int[3];
      new;
      for i := 0 to 3
        invariant forall j :: 0 <= j < i ==> grid[j] == 0 && block[j] == 0
        invariant kernelName == "" && callTypes == [] && callValues == []
      {
        grid[i] := 0;
        block[i] := 0;
      }
      assert grid[..] == [0, 0, 0] && block[..] == [0, 0, 0];
    }
  }

  /** The result of a method against what its specification function computes. */
  ghost predicate Agrees(r: Outcome<Error>, after: LaunchDescriptor, expected: Result<LaunchDescriptor, Error>) {
    (expected.Ok? ==> r == Pass && after == expected.value)
    && (expected.Err? ==> r == Fail(expected.error))
  }

  method GetLaunchTypes(args: seq<Value>, info: LaunchCallInfo) returns (r: Outcome<Error>)
    requires info.Valid()
    modifies info
    ensures info.Valid()
    ensures Agrees(r, info.Descriptor(), WithLaunchTypes(old(info.Descriptor()), args))
  {
    if |args| == 0 {
      return Fail(MissingOperand);
    }
    var argOperand := args[0];
    if argOperand.ConstantExpr? {
      var op0 := argOperand.operand0;
      if op0.Global? && op0.valueType.Function? {
        var params := op0.valueType.params;
        for k := 0 to |params|
          invariant info.callTypes == old(info.callTypes) + params[..k]
          invariant info.kernelName == old(info.kernelName) && info.callValues == old(info.callValues)
        {
          info.callTypes := info.callTypes + [params[k]];
        }
        assert params[..|params|] == params;
      }
      info.kernelName := NameOf(op0);
    }
    r := Pass;
  }

  method GetLaunchArgValue(args: seq<Value>, info: LaunchCallInfo) returns (r: Outcome<Error>)
    requires info.Valid()
    modifies info
    ensures info.Valid()
    ensures Agrees(r, info.Descriptor(), WithArgValue(old(info.Descriptor()), args))
  {
    if |args| == 0 {
      return Fail(MissingOperand);
    }
    var op0 := args[0];
    if !op0.Instruction? {
      return Fail(NotAnInstruction);
    }
    if |op0.operands| == 0 {
      return Fail(MissingOperand);
    }
    var op0_0 := op0.operands[0];
    if !op0_0.Instruction? {
      return Fail(NotAnInstruction);
    }
    var users := op0_0.users;
    for k := 0 to |users|
      invariant info.callValues == old(info.callValues) + StoredValues(users[..k])
      invariant info.kernelName == old(info.kernelName) && info.callTypes == old(info.callTypes)
    {
      assert users[..k + 1][..k] == users[..k];
      if users[k].StoreUser? {
        info.callValues := info.callValues + [users[k].stored];
      }
    }
    assert users[..|users|] == users;
    r := Pass;
  }

  /**
   * getBlockGridDimensions. The dimensions are written before argument 4 is checked; a
   * failed check ends the program, so the arrays' contents after a failure are left open.
   */
  method GetBlockGridDimensions(args: seq<Value>, info: LaunchCallInfo) returns (r: Outcome<Error>)
    requires info.Valid()
    modifies info.grid, info.block
    ensures Agrees(r, info.Descriptor(), ConfiguredDescriptor(old(info.Descriptor()), args))
  {
    var gridXYArg := ConstantArg(args, 0);
    if gridXYArg.Err? { return Fail(gridXYArg.error); }
    var gridXY := ReadUint64(gridXYArg.value);
    var gridX := gridXY % X_MODULUS;
    var gridY := gridXY / TWO_TO_32;
    var gridZArg := ConstantArg(args, 1);
    if gridZArg.Err? { return Fail(gridZArg.error); }
    var gridZ := ReadUint32(gridZArg.value);

    var blockXYArg := ConstantArg(args, 2);
    if blockXYArg.Err? { return Fail(blockXYArg.error); }
    var blockXY := ReadUint64(blockXYArg.value);
    var blockX := blockXY % X_MODULUS;
    var blockY := blockXY / TWO_TO_32;
    var blockZArg := ConstantArg(args, 3);
    if blockZArg.Err? { return Fail(blockZArg.error); }
    var blockZ := ReadUint32(blockZArg.value);

    info.grid[0] := Dim(gridX);
    info.grid[1] := Dim(gridY);
    info.grid[2] := Dim(gridZ);

    info.block[0] := Dim(blockX);
    info.block[1] := Dim(blockY);
    info.block[2] := Dim(blockZ);

    var sharedMemoryArg := ConstantArg(args, 4);
    if sharedMemoryArg.Err? { return Fail(sharedMemoryArg.error); }
    if ReadUint64(sharedMemoryArg.value) != 0 {
      return Fail(SharedMemoryNotZero);
    }
    assert info.grid[..] == [Dim(gridX), Dim(gridY), Dim(gridZ)];
    assert info.block[..] == [Dim(blockX), Dim(blockY), Dim(blockZ)];
    r := Pass;
  }

  /**
   * operator<< for LaunchCallInfo. Each loop writes its part of the output into its own string
   * and the parts are written out in operator<<'s order.
   */
  method WriteLaunchCallInfo(info: LaunchCallInfo, printType: Type -> string, describe: Value -> string) returns (s: string)
    requires info.Valid()
    ensures s == Render(info.Descriptor(), printType, describe)
  {
    var gridText := "";
    for j := 0 to 3
      invariant gridText == Joined(info.grid[..j], IntText)
    {
      assert info.grid[..j + 1][..j] == info.grid[..j];
      if j > 0 {
        gridText := gridText + ", ";
      }
      gridText := gridText + IntText(info.grid[j]);
    }
    assert info.grid[..3] == info.grid[..];

    var blockText := "";
    for j := 0 to 3
      invariant blockText == Joined(info.block[..j], IntText)
    {
      assert info.block[..j + 1][..j] == info.block[..j];
      if j > 0 {
        blockText := blockText + ", ";
      }
      blockText := blockText + IntText(info.block[j]);
    }
    assert info.block[..3] == info.block[..];

    var typesText := "";
    var types := info.callTypes;
    for i := 0 to |types|
      invariant typesText == Joined(types[..i], printType)
    {
      assert types[..i + 1][..i] == types[..i];
      if i > 0 {
        typesText := typesText + ", ";
      }
      typesText := typesText + printType(types[i]);
    }
    assert types[..|types|] == types;

    var valuesText := "";
    var values := info.callValues;
    for i := 0 to |values|
      invariant valuesText == ValueLines(values[..i], describe)
    {
      assert values[..i + 1][..i] == values[..i];
      valuesText := valuesText + "value " + describe(values[i]) + "\n";
    }
    assert values[..|values|] == values;

    s := "LaunchCallInfo " + info.kernelName + "<<<"
      + "dim3(" + gridText + ")" + ", "
      + "dim3(" + blockText + ")" + ">>>"
      + "(" + typesText + ");\n"
      + valuesText;
  }

  /** A function of the host module: its name and its instructions in program order. */
  class HostFunction {
    const name: string
    var body: seq<Inst>

    constructor (name: string, body: seq<Inst>)
      ensures this.name == name && this.body == body
    {
      this.name := name;
      this.body := body;
    }
  }

  /**
   * patchFunction. `printed` is the sequence of LaunchCallInfo values written to standard
   * output: one at each cudaLaunch and the pending one after the scan.
   */
  method PatchFunction(F: HostFunction) returns (r: Outcome<Error>, printed: seq<LaunchDescriptor>)
    modifies F
    ensures Patched(r, printed, F.body) == PatchSpec(old(F.body))
  {
    var toErase: seq<Inst> := [];
    var launchCallInfo := new LaunchCallInfo();
    var toReplace: seq<Inst> := [];
    printed := [];
    var body := F.body;
    for i := 0 to |body|
      invariant F.body == body
      invariant launchCallInfo.Valid() && fresh(launchCallInfo)
      invariant fresh(launchCallInfo.grid) && fresh(launchCallInfo.block)
      invariant Scan(SCAN_START, body)
                == Scan(ScanState(toErase, toReplace, printed, launchCallInfo.Descriptor()), body[i..])
    {
      var inst := body[i];
      assert body[i..][0] == inst && body[i..][1..] == body[i + 1..];
      if !inst.kind.Call? || inst.kind.callee.None? {
        continue;
      }
      var called := inst.kind.callee.value;
      if called.name == "" {
        continue;
      }
      var calledFunctionName := called.name;
      if calledFunctionName == LAUNCH {
        var ok := GetLaunchTypes(inst.kind.args, launchCallInfo);
        if ok.Fail? {
          return ok, [];
        }
        toErase := toErase + [inst];
        printed := printed + [launchCallInfo.Descriptor()];
        launchCallInfo := new LaunchCallInfo();
      } else if calledFunctionName == SETUP_ARGUMENT {
        var ok := GetLaunchArgValue(inst.kind.args, launchCallInfo);
        if ok.Fail? {
          return ok, [];
        }
        toReplace := toReplace + [inst];
      } else if calledFunctionName == CONFIGURE_CALL {
        var ok := GetBlockGridDimensions(inst.kind.args, launchCallInfo);
        if ok.Fail? {
          return ok, [];
        }
        toReplace := toReplace + [inst];
      }
    }
    printed := printed + [launchCallInfo.Descriptor()];

    for k := 0 to |toErase|
      invariant EraseAll(body, toErase) == EraseAll(F.body, toErase[k..])
    {
      var inst := toErase[k];
      assert toErase[k..][1..] == toErase[k + 1..];
      if inst.useCount != 0 {
        return Fail(CannotEraseUsed), printed;
      }
      F.body := Without(F.body, {inst.id});
    }
    var erased := F.body;
    for k := 0 to |toReplace|
      invariant ReplaceAllWithZero(erased, toReplace) == ReplaceAllWithZero(F.body, toReplace[k..])
    {
      var inst := toReplace[k];
      assert toReplace[k..][1..] == toReplace[k + 1..];
      F.body := Without(F.body, {inst.id});
    }
    r := Pass;
  }

  /**
   * patchModule over the functions of a module, in module order: each function is patched as
   * PatchOne says, and the first failure ends the walk, leaving the later functions as they were.
   */
  method PatchModule(functions: seq<HostFunction>) returns (r: Outcome<Error>)
    requires forall i, j :: 0 <= i < j < |functions| ==> functions[i] != functions[j]
    modifies set f | f in functions
    ensures r == Pass <==>
      forall j :: 0 <= j < |functions| ==> PatchOne(functions[j].name, old(functions[j].body)).outcome == Pass
    ensures r == Pass ==>
      forall j :: 0 <= j < |functions| ==> functions[j].body == PatchOne(functions[j].name, old(functions[j].body)).body
    ensures r.Fail? ==>
      exists k :: 0 <= k < |functions|
        && r == PatchOne(functions[k].name, old(functions[k].body)).outcome
        && (forall j :: 0 <= j < k ==> PatchOne(functions[j].name, old(functions[j].body)).outcome == Pass)
        && (forall j :: 0 <= j < |functions| ==>
              functions[j].body == if j <= k then PatchOne(functions[j].name, old(functions[j].body)).body
                                   else old(functions[j].body))
  {
    ghost var bodies := seq(|functions|, j requires 0 <= j < |functions| reads set f | f in functions => functions[j].body);
    for k := 0 to |functions|
      invariant forall j :: 0 <= j < k ==> PatchOne(functions[j].name, bodies[j]).outcome == Pass
      invariant forall j :: 0 <= j < k ==> functions[j].body == PatchOne(functions[j].name, bodies[j]).body
      invariant forall j :: k <= j < |functions| ==> functions[j].body == bodies[j]
    {
      var F := functions[k];
      assert forall j :: 0 <= j < |functions| && j != k ==> functions[j] != F;
      if F.name == PATCHED_FUNCTION {
        var ok, _ := PatchFunction(F);
        if ok.Fail? {
          assert ok == PatchOne(functions[k].name, bodies[k]).outcome;
          return ok;
        }
      }
    }
    r := Pass;
  }
}

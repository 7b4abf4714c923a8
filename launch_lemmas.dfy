/**
 * Properties of the host-side patch, stated about the specification functions of module
 * HostPatch that the methods there are proved against.
 */
module LaunchLemmas {
  import opened Outcomes
  import opened IrTypes
  import opened HostPatch

  // ---------------------------------------------------------------------------------------
  // Selecting instructions by call kind

  /** The instructions of `body` whose kind is in `kinds`, in program order. */
  function CallsOf(body: seq<Inst>, kinds: set<ProtocolCall>): (r: seq<Inst>)
    ensures |r| <= |body|
    ensures forall x :: x in r <==> x in body && Classify(x) in kinds
  {
    if |body| == 0 then []
    else (if Classify(body[0]) in kinds then [body[0]] else []) + CallsOf(body[1..], kinds)
  }

  /** The ids of a list of instructions. */
  function Ids(insts: seq<Inst>): set<nat> {
    set x | x in insts :: x.id
  }

  predicate UniqueIds(body: seq<Inst>) {
    forall i, j :: 0 <= i < j < |body| ==> body[i].id != body[j].id
  }

  // ---------------------------------------------------------------------------------------
  // Decoding the launch configuration

  /** The packing clang uses for a dim3's x and y: y in the high word, x in the low word. */
  function PackXY(x: uint32, y: uint32): uint64 {
    y * TWO_TO_32 + x
  }

  /** Any x below 2^31 and any y come back out of the packed word unchanged. */
  lemma DecodeRoundTrip(x: uint32, y: uint32)
    requires x < X_MODULUS
    ensures DecodeXY(PackXY(x, y)) == (x, y)
  {
    LowBits(PackXY(x, y), 2 * y, x);
    HighWord(PackXY(x, y), y, x);
  }

  /** Bit 31 of the low word is masked away: x keeps only its low 31 bits. */
  lemma DecodeDropsBit31(x: uint32, y: uint32)
    ensures DecodeXY(PackXY(x, y)) == (x % X_MODULUS, y)
  {
    LowBits(PackXY(x, y), 2 * y + x / 0x8000_0000, x % 0x8000_0000);
    HighWord(PackXY(x, y), y, x);
  }

  lemma LowBits(n: int, k: int, r: int)
    requires 0 <= r < 0x8000_0000 && n == k * 0x8000_0000 + r
    ensures n % X_MODULUS == r
  {
  }

  lemma HighWord(n: int, k: int, r: int)
    requires 0 <= r < 0x1_0000_0000 && n == k * 0x1_0000_0000 + r
    ensures n / TWO_TO_32 == k
  {
  }

  lemma DecodeExample()
    ensures DecodeXY(0x0000_0002_0000_0005) == (5, 2)
  {
  }

  /** The arguments of a cudaConfigureCall for the given dimensions, shared-memory size and stream. */
  function ConfigureArgs(gridX: uint32, gridY: uint32, gridZ: uint32, blockX: uint32, blockY: uint32, blockZ: uint32,
                         sharedMemory: uint64, stream: Value): seq<Value> {
    [ConstantInt(PackXY(gridX, gridY)), ConstantInt(gridZ), ConstantInt(PackXY(blockX, blockY)), ConstantInt(blockZ),
     ConstantInt(sharedMemory), stream]
  }

  /**
   * A cudaConfigureCall for dimensions below 2^31 and no shared memory sets exactly those
   * dimensions, whatever the stream, and touches nothing else.
   */
  lemma ConfigureRoundTrip(d: LaunchDescriptor, gridX: uint32, gridY: uint32, gridZ: uint32,
                           blockX: uint32, blockY: uint32, blockZ: uint32, stream: Value)
    requires gridX < X_MODULUS && gridY < X_MODULUS && gridZ < X_MODULUS
    requires blockX < X_MODULUS && blockY < X_MODULUS && blockZ < X_MODULUS
    ensures ConfiguredDescriptor(d, ConfigureArgs(gridX, gridY, gridZ, blockX, blockY, blockZ, 0, stream))
            == Ok(d.(grid := [gridX, gridY, gridZ], block := [blockX, blockY, blockZ]))
  {
    DecodeRoundTrip(gridX, gridY);
    DecodeRoundTrip(blockX, blockY);
  }

  /** cudaConfigureCall succeeds exactly when arguments 0-4 are integer constants and argument 4 is 0. */
  lemma ConfigureSucceedsIff(d: LaunchDescriptor, args: seq<Value>)
    ensures ConfiguredDescriptor(d, args).Ok?
            <==> |args| >= 5 && (forall i :: 0 <= i < 5 ==> args[i].ConstantInt?) && args[4].zext == 0
    ensures ConfiguredDescriptor(d, args).Ok? ==>
              var d' := ConfiguredDescriptor(d, args).value;
              d'.kernelName == d.kernelName && d'.callTypes == d.callTypes && d'.callValues == d.callValues
              && |d'.grid| == 3 && |d'.block| == 3
  {
    if |args| >= 5 && (forall i :: 0 <= i < 5 ==> args[i].ConstantInt?) {
      assert args[0].ConstantInt? && args[1].ConstantInt? && args[2].ConstantInt?;
      assert args[3].ConstantInt? && args[4].ConstantInt?;
    }
  }

  /** As built, the shared-memory size is never checked: a call with 16 bytes is accepted. */
  lemma SharedMemoryAcceptedAsBuilt(d: LaunchDescriptor)
    ensures ConfiguredDescriptorAsBuilt(d, ConfigureArgs(5, 2, 1, 32, 1, 1, 16, ConstantInt(0))).Ok?
    ensures ConfiguredDescriptor(d, ConfigureArgs(5, 2, 1, 32, 1, 1, 16, ConstantInt(0))) == Err(SharedMemoryNotZero)
  {
  }

  /** The two readings agree on every call the intended check lets through. */
  lemma AsBuiltAgreesWhenSharedMemoryIsZero(d: LaunchDescriptor, args: seq<Value>)
    requires ConfiguredDescriptor(d, args).Ok?
    ensures ConfiguredDescriptorAsBuilt(d, args) == ConfiguredDescriptor(d, args)
  {
  }

  // ---------------------------------------------------------------------------------------
  // Launch types and argument values

  /** A launch of a constant-expression kernel pointer records its name and its parameter types. */
  lemma LaunchOfKernel(d: LaunchDescriptor, kernel: string, result: Type, params: seq<Type>, rest: seq<Value>)
    ensures WithLaunchTypes(d, [ConstantExpr(Global(kernel, Function(result, params)))] + rest)
            == Ok(d.(callTypes := d.callTypes + params, kernelName := kernel))
  {
  }

  /** Any other launch operand leaves the LaunchCallInfo as it was. */
  lemma LaunchOfOtherOperand(d: LaunchDescriptor, args: seq<Value>)
    requires |args| > 0 && !args[0].ConstantExpr?
    ensures WithLaunchTypes(d, args) == Ok(d)
  {
  }

  function StoreUserCount(users: seq<User>): nat {
    if |users| == 0 then 0
    else (if users[0].StoreUser? then 1 else 0) + StoreUserCount(users[1..])
  }

  /** StoredValues distributes over concatenation of use lists. */
  lemma {:induction false} StoredValuesConcat(a: seq<User>, b: seq<User>)
    ensures StoredValues(a + b) == StoredValues(a) + StoredValues(b)
    decreases |b|
  {
    if |b| > 0 {
      var b' := b[..|b| - 1];
      assert (a + b)[..|a + b| - 1] == a + b';
      StoredValuesConcat(a, b');
    } else {
      assert a + b == a;
    }
  }

  /** One value per store user, each the value that user stores, in use-list order. */
  lemma {:induction false} StoredValuesAreTheStores(users: seq<User>)
    ensures |StoredValues(users)| == StoreUserCount(users)
    ensures forall v :: v in StoredValues(users) <==> StoreUser(v) in users
    ensures |users| > 0 ==> StoredValues(users) == StoredValues([users[0]]) + StoredValues(users[1..])
    decreases |users|
  {
    if |users| > 0 {
      assert users == [users[0]] + users[1..];
      StoredValuesConcat([users[0]], users[1..]);
      assert [users[0]][..0] == [];
      StoredValuesAreTheStores(users[1..]);
    }
  }

  /** cudaSetupArgument only appends: the earlier values, and everything else, stay as they were. */
  lemma SetupArgumentAppends(d: LaunchDescriptor, args: seq<Value>)
    requires WithArgValue(d, args).Ok?
    ensures var d' := WithArgValue(d, args).value;
            d'.callValues[..|d.callValues|] == d.callValues
            && d'.callValues[|d.callValues|..] == StoredValues(args[0].operands[0].users)
            && d' == d.(callValues := d'.callValues)
  {
  }

  // ---------------------------------------------------------------------------------------
  // The scan

  /** One step of the scan, by the kind of the instruction. */
  lemma ScanInstCollects(st: ScanState, inst: Inst)
    requires ScanInst(st, inst).Ok?
    ensures var st' := ScanInst(st, inst).value;
            st'.toErase == st.toErase + (if Classify(inst) == LaunchCall then [inst] else [])
            && st'.toReplace == st.toReplace + (if Classify(inst) in {SetupArgumentCall, ConfigureCall} then [inst] else [])
            && |st'.printed| == |st.printed| + (if Classify(inst) == LaunchCall then 1 else 0)
  {
  }

  /**
   * The scan puts the launches on the erase list and the setup and configure calls on the
   * replace list, each in program order, and prints once per launch.
   */
  lemma {:induction false} ScanCollects(st: ScanState, body: seq<Inst>)
    requires Scan(st, body).Ok?
    ensures var st' := Scan(st, body).value;
            st'.toErase == st.toErase + CallsOf(body, {LaunchCall})
            && st'.toReplace == st.toReplace + CallsOf(body, {SetupArgumentCall, ConfigureCall})
            && |st'.printed| == |st.printed| + |CallsOf(body, {LaunchCall})|
    decreases |body|
  {
    if |body| > 0 {
      var next := ScanInst(st, body[0]).value;
      assert Scan(st, body) == Scan(next, body[1..]);
      ScanInstCollects(st, body[0]);
      ScanCollects(next, body[1..]);
      assert CallsOf(body, {LaunchCall})
             == (if Classify(body[0]) == LaunchCall then [body[0]] else []) + CallsOf(body[1..], {LaunchCall});
    }
  }

  /** Without protocol calls the scan changes nothing and cannot fail. */
  lemma {:induction false} ScanIgnoresOtherInstructions(st: ScanState, body: seq<Inst>)
    requires CallsOf(body, PROTOCOL) == []
    ensures Scan(st, body) == Ok(st)
    decreases |body|
  {
    if |body| > 0 {
      assert body[0] in body;
      assert Classify(body[0]) == NotProtocol;
      ScanIgnoresOtherInstructions(st, body[1..]);
    }
  }

  /** A cudaLaunch closes the current LaunchCallInfo and starts from a fresh one. */
  lemma LaunchStartsFreshInfo(st: ScanState, inst: Inst)
    requires Classify(inst) == LaunchCall && ScanInst(st, inst).Ok?
    ensures ScanInst(st, inst).value.current == EMPTY_DESCRIPTOR
    ensures ScanInst(st, inst).value.printed == st.printed + [WithLaunchTypes(st.current, inst.kind.args).value]
  {
  }

  // ---------------------------------------------------------------------------------------
  // The commit passes

  lemma {:induction false} WithoutWithout(body: seq<Inst>, a: set<nat>, b: set<nat>)
    ensures Without(Without(body, a), b) == Without(body, a + b)
    decreases |body|
  {
    if |body| > 0 {
      WithoutWithout(body[1..], a, b);
      if body[0].id in a {
        assert Without(body, a) == Without(body[1..], a);
      } else {
        assert Without(body, a) == [body[0]] + Without(body[1..], a);
        assert Without(body, a)[1..] == Without(body[1..], a);
      }
    }
  }

  /** Erasing fails exactly when some recorded launch still has uses, and then fails with that error. */
  lemma {:induction false} EraseAllFailsIffUsed(body: seq<Inst>, toErase: seq<Inst>)
    ensures EraseAll(body, toErase).0 == Pass <==> forall x :: x in toErase ==> x.useCount == 0
    ensures EraseAll(body, toErase).0 == Pass || EraseAll(body, toErase).0 == Fail(CannotEraseUsed)
    decreases |toErase|
  {
    if |toErase| > 0 && toErase[0].useCount == 0 {
      EraseAllFailsIffUsed(Without(body, {toErase[0].id}), toErase[1..]);
      assert toErase == [toErase[0]] + toErase[1..];
    }
  }

  /** A successful erasure removes exactly the recorded instructions. */
  lemma {:induction false} EraseAllRemoves(body: seq<Inst>, toErase: seq<Inst>)
    requires EraseAll(body, toErase).0 == Pass
    ensures EraseAll(body, toErase).1 == Without(body, Ids(toErase))
    decreases |toErase|
  {
    if |toErase| == 0 {
      assert Ids(toErase) == {};
      NothingRemoved(body);
    } else {
      var first := toErase[0].id;
      EraseAllRemoves(Without(body, {first}), toErase[1..]);
      WithoutWithout(body, {first}, Ids(toErase[1..]));
      assert toErase == [toErase[0]] + toErase[1..];
      assert Ids(toErase) == {first} + Ids(toErase[1..]);
    }
  }

  /** Replacing with zero takes exactly the recorded instructions out of the list. */
  lemma {:induction false} ReplaceAllRemoves(body: seq<Inst>, toReplace: seq<Inst>)
    ensures ReplaceAllWithZero(body, toReplace) == Without(body, Ids(toReplace))
    decreases |toReplace|
  {
    if |toReplace| == 0 {
      assert Ids(toReplace) == {};
      NothingRemoved(body);
    } else {
      var first := toReplace[0].id;
      ReplaceAllRemoves(Without(body, {first}), toReplace[1..]);
      WithoutWithout(body, {first}, Ids(toReplace[1..]));
      assert toReplace == [toReplace[0]] + toReplace[1..];
      assert Ids(toReplace) == {first} + Ids(toReplace[1..]);
    }
  }

  lemma {:induction false} NothingRemoved(body: seq<Inst>)
    ensures Without(body, {}) == body
    decreases |body|
  {
    if |body| > 0 {
      NothingRemoved(body[1..]);
    }
  }

  /** Removing by an id set is selecting by kind, when the set holds exactly the ids of the other kinds. */
  lemma {:induction false} WithoutSelects(body: seq<Inst>, ids: set<nat>, kinds: set<ProtocolCall>)
    requires forall i :: 0 <= i < |body| ==> (body[i].id in ids <==> Classify(body[i]) !in kinds)
    ensures Without(body, ids) == CallsOf(body, kinds)
    decreases |body|
  {
    if |body| > 0 {
      assert forall i :: 1 <= i < |body| ==> body[1..][i - 1] == body[i];
      WithoutSelects(body[1..], ids, kinds);
    }
  }

  /** With unique ids, an instruction's id is among the ids of a selection exactly when it is selected. */
  lemma SelectedId(body: seq<Inst>, kinds: set<ProtocolCall>, i: int)
    requires UniqueIds(body) && 0 <= i < |body|
    ensures body[i].id in Ids(CallsOf(body, kinds)) <==> Classify(body[i]) in kinds
  {
    if body[i].id in Ids(CallsOf(body, kinds)) {
      var y :| y in CallsOf(body, kinds) && y.id == body[i].id;
      var j :| 0 <= j < |body| && body[j] == y;
      assert j == i;
    }
  }

  /**
   * A successful patch of a function with unique instruction ids leaves exactly its
   * non-protocol instructions, in their original order: no cudaLaunch, cudaSetupArgument or
   * cudaConfigureCall call remains, and nothing else is lost.
   */
  lemma PatchRemovesExactlyProtocolCalls(body: seq<Inst>)
    requires UniqueIds(body)
    requires PatchSpec(body).outcome == Pass
    ensures PatchSpec(body).body == CallsOf(body, {NotProtocol})
    ensures forall x :: x in PatchSpec(body).body ==> Classify(x) == NotProtocol
  {
    var st := Scan(SCAN_START, body).value;
    ScanCollects(SCAN_START, body);
    var erase := CallsOf(body, {LaunchCall});
    var replace := CallsOf(body, {SetupArgumentCall, ConfigureCall});
    assert st.toErase == erase && st.toReplace == replace;
    EraseAllRemoves(body, erase);
    ReplaceAllRemoves(Without(body, Ids(erase)), replace);
    WithoutWithout(body, Ids(erase), Ids(replace));
    forall i | 0 <= i < |body|
      ensures body[i].id in Ids(erase) + Ids(replace) <==> Classify(body[i]) !in {NotProtocol}
    {
      SelectedId(body, {LaunchCall}, i);
      SelectedId(body, {SetupArgumentCall, ConfigureCall}, i);
    }
    WithoutSelects(body, Ids(erase) + Ids(replace), {NotProtocol});
  }

  /** After a successful scan, the patch's outcome is that of the erase loop over the launches. */
  lemma PatchOutcomeIsErasure(body: seq<Inst>)
    requires Scan(SCAN_START, body).Ok?
    ensures PatchSpec(body).outcome == EraseAll(body, CallsOf(body, {LaunchCall})).0
    ensures |PatchSpec(body).printed| == |CallsOf(body, {LaunchCall})| + 1
  {
    ScanCollects(SCAN_START, body);
    var st := Scan(SCAN_START, body).value;
    assert st.toErase == [] + CallsOf(body, {LaunchCall}) == CallsOf(body, {LaunchCall});
    assert |st.printed| == |CallsOf(body, {LaunchCall})|;
  }

  /**
   * After a successful scan, the patch fails exactly when a cudaLaunch call has uses; it then
   * throws "cannot erase used instructions", having printed every LaunchCallInfo.
   */
  lemma PatchFailsIffLaunchUsed(body: seq<Inst>)
    requires Scan(SCAN_START, body).Ok?
    ensures PatchSpec(body).outcome.Fail?
            <==> exists x :: x in body && Classify(x) == LaunchCall && x.useCount != 0
    ensures PatchSpec(body).outcome.Fail? ==> PatchSpec(body).outcome == Fail(CannotEraseUsed)
    ensures |PatchSpec(body).printed| == |CallsOf(body, {LaunchCall})| + 1
  {
    PatchOutcomeIsErasure(body);
    var erase := CallsOf(body, {LaunchCall});
    EraseAllFailsIffUsed(body, erase);
  }

  /** A function without protocol calls is left as it is, and only the fresh LaunchCallInfo is printed. */
  lemma PatchWithoutProtocolCalls(body: seq<Inst>)
    requires CallsOf(body, PROTOCOL) == []
    ensures PatchSpec(body) == Patched(Pass, [EMPTY_DESCRIPTOR], body)
  {
    ScanIgnoresOtherInstructions(SCAN_START, body);
  }

  /** patchModule leaves every function but PATCHED_FUNCTION untouched. */
  lemma OnlyThePatchedFunctionChanges(name: string, body: seq<Inst>)
    requires name != PATCHED_FUNCTION
    ensures PatchOne(name, body) == Patched(Pass, [], body)
  {
  }

  // ---------------------------------------------------------------------------------------
  // Printing

  /** Three zero dimensions print as "0, 0, 0". */
  lemma ZeroDimensionsText()
    ensures Joined([0, 0, 0], IntText) == "0, 0, 0"
  {
    assert IntText(0) == "0";
    assert [0, 0, 0][..2] == [0, 0] && [0, 0][..1] == [0];
  }

  /** Render of a fresh LaunchCallInfo, piece by piece. */
  lemma RenderFreshInfoPieces(printType: Type -> string, describe: Value -> string)
    ensures Render(EMPTY_DESCRIPTOR, printType, describe)
            == "LaunchCallInfo " + "" + "<<<" + "dim3(" + Joined([0, 0, 0], IntText) + ")" + ", "
               + "dim3(" + Joined([0, 0, 0], IntText) + ")" + ">>>" + "(" + "" + ");\n" + ""
  {
  }

  /** A fresh LaunchCallInfo prints with an empty name, zero dimensions and no arguments. */
  lemma RenderFreshInfo(printType: Type -> string, describe: Value -> string)
    ensures Render(EMPTY_DESCRIPTOR, printType, describe)
            == "LaunchCallInfo <<<dim3(0, 0, 0), dim3(0, 0, 0)>>>();\n"
  {
    RenderFreshInfoPieces(printType, describe);
    ZeroDimensionsText();
    var zeros := "0, 0, 0";
    assert "LaunchCallInfo " + "" + "<<<" + "dim3(" + zeros + ")" + ", " == "LaunchCallInfo <<<dim3(0, 0, 0), ";
    assert "LaunchCallInfo <<<dim3(0, 0, 0), " + "dim3(" + zeros + ")" + ">>>"
        == "LaunchCallInfo <<<dim3(0, 0, 0), dim3(0, 0, 0)>>>";
    assert "LaunchCallInfo <<<dim3(0, 0, 0), dim3(0, 0, 0)>>>" + "(" + "" + ");\n" + ""
        == "LaunchCallInfo <<<dim3(0, 0, 0), dim3(0, 0, 0)>>>();\n";
  }
}

/** A whole launch sequence through the patch: the shape clang emits for `setValue<<<...>>>(a, b)`. */
module LaunchScenario {
  import opened Outcomes
  import opened IrTypes
  import opened HostPatch
  import LaunchLemmas

  const FLOAT_PTR: Type := Pointer(Scalar("float"), 0)
  const INT: Type := Scalar("i32")
  const KERNEL: Value := Global("_Z8setValuePfif", Function(Scalar("void"), [FLOAT_PTR, INT]))

  /** A cudaSetupArgument whose argument slot has a single store user, storing `v`. */
  function Setup(id: nat, v: Value): Inst {
    Inst(id, Call(Some(Callee(SETUP_ARGUMENT)), [Instruction("", [Instruction("slot", [], [StoreUser(v), OtherUser])], [])]), 1)
  }

  function Configure(id: nat): Inst {
    Inst(id, Call(Some(Callee(CONFIGURE_CALL)), LaunchLemmas.ConfigureArgs(5, 2, 1, 32, 1, 1, 0, ConstantInt(0))), 1)
  }

  function Launch(id: nat): Inst {
    Inst(id, Call(Some(Callee(LAUNCH)), [ConstantExpr(KERNEL)]), 0)
  }

  const OTHER: Inst := Inst(9, NonCall, 0)

  /** The three runtime entry points have distinct, non-empty names. */
  lemma DistinctNames()
    ensures LAUNCH != SETUP_ARGUMENT && LAUNCH != CONFIGURE_CALL && SETUP_ARGUMENT != CONFIGURE_CALL
    ensures LAUNCH != "" && SETUP_ARGUMENT != "" && CONFIGURE_CALL != ""
  {
    assert |LAUNCH| != |SETUP_ARGUMENT| && |LAUNCH| != |CONFIGURE_CALL|;
    assert SETUP_ARGUMENT[4] != CONFIGURE_CALL[4];
  }

  lemma OneStore(v: Value)
    ensures StoredValues([StoreUser(v), OtherUser]) == [v]
  {
    var users := [StoreUser(v), OtherUser];
    assert users[..1] == [StoreUser(v)];
    assert [StoreUser(v)][..0] == [];
    assert StoredValues([StoreUser(v)]) == [v];
    assert StoredValues(users) == StoredValues(users[..1]);
  }

  lemma ScanCons(st: ScanState, x: Inst, rest: seq<Inst>, st': ScanState)
    requires ScanInst(st, x) == Ok(st')
    ensures Scan(st, [x] + rest) == Scan(st', rest)
  {
    assert ([x] + rest)[1..] == rest;
  }

  lemma CallsOfCons(x: Inst, rest: seq<Inst>, kinds: set<ProtocolCall>)
    ensures LaunchLemmas.CallsOf([x] + rest, kinds)
            == (if Classify(x) in kinds then [x] else []) + LaunchLemmas.CallsOf(rest, kinds)
  {
    assert ([x] + rest)[1..] == rest;
  }

  /** The LaunchCallInfo after the configure call and after each setup call. */
  const CONFIGURED: LaunchDescriptor := LaunchDescriptor("", [], [], [5, 2, 1], [32, 1, 1])

  function AfterSetup(values: seq<Value>): LaunchDescriptor {
    CONFIGURED.(callValues := values)
  }

  lemma ConfigureStep()
    ensures ScanInst(SCAN_START, Configure(1)) == Ok(ScanState([], [Configure(1)], [], CONFIGURED))
  {
    DistinctNames();
    LaunchLemmas.ConfigureRoundTrip(EMPTY_DESCRIPTOR, 5, 2, 1, 32, 1, 1, ConstantInt(0));
    assert Classify(Configure(1)) == ConfigureCall;
    assert EMPTY_DESCRIPTOR.(grid := [5, 2, 1], block := [32, 1, 1]) == CONFIGURED;
    assert ConfiguredDescriptor(EMPTY_DESCRIPTOR, Configure(1).kind.args) == Ok(CONFIGURED);
    assert [] + [Configure(1)] == [Configure(1)];
  }

  lemma SetupStep(st: ScanState, id: nat, v: Value)
    ensures ScanInst(st, Setup(id, v))
            == Ok(st.(toReplace := st.toReplace + [Setup(id, v)], current := st.current.(callValues := st.current.callValues + [v])))
  {
    DistinctNames();
    OneStore(v);
    assert Classify(Setup(id, v)) == SetupArgumentCall;
  }

  lemma LaunchStep(st: ScanState)
    requires st.current.callTypes == []
    ensures ScanInst(st, Launch(4))
            == Ok(ScanState(st.toErase + [Launch(4)], st.toReplace,
                            st.printed + [st.current.(callTypes := [FLOAT_PTR, INT], kernelName := "_Z8setValuePfif")],
                            EMPTY_DESCRIPTOR))
  {
    DistinctNames();
    assert Classify(Launch(4)) == LaunchCall;
    assert st.current.callTypes + ParamTypes(KERNEL) == [FLOAT_PTR, INT];
  }

  /** The configure call and the two setup calls fill in the dimensions and both values. */
  lemma ScanOfSetupPrefix(a: Value, b: Value, rest: seq<Inst>)
    ensures Scan(SCAN_START, [Configure(1), Setup(2, a), Setup(3, b)] + rest)
            == Scan(ScanState([], [Configure(1), Setup(2, a), Setup(3, b)], [], AfterSetup([a, b])), rest)
  {
    var r2 := [Setup(3, b)] + rest;
    var r1 := [Setup(2, a)] + r2;
    assert [Configure(1), Setup(2, a), Setup(3, b)] + rest == [Configure(1)] + r1;
    var st1 := ScanState([], [Configure(1)], [], CONFIGURED);
    ConfigureStep();
    ScanCons(SCAN_START, Configure(1), r1, st1);
    var st2 := ScanState([], [Configure(1), Setup(2, a)], [], AfterSetup([a]));
    SetupStep(st1, 2, a);
    assert [Configure(1)] + [Setup(2, a)] == [Configure(1), Setup(2, a)];
    assert CONFIGURED.callValues + [a] == [a];
    assert st1.current.(callValues := [a]) == AfterSetup([a]);
    ScanCons(st1, Setup(2, a), r2, st2);
    var st3 := ScanState([], [Configure(1), Setup(2, a), Setup(3, b)], [], AfterSetup([a, b]));
    SetupStep(st2, 3, b);
    assert [Configure(1), Setup(2, a)] + [Setup(3, b)] == [Configure(1), Setup(2, a), Setup(3, b)];
    assert [a] + [b] == [a, b];
    assert st2.current.(callValues := [a, b]) == AfterSetup([a, b]);
    ScanCons(st2, Setup(3, b), rest, st3);
  }

  /** The launch prints the configured info with the kernel's types; the other instruction is skipped. */
  lemma ScanOfLaunchSuffix(a: Value, b: Value)
    ensures Scan(ScanState([], [Configure(1), Setup(2, a), Setup(3, b)], [], AfterSetup([a, b])), [Launch(4), OTHER])
            == Ok(ScanState([Launch(4)], [Configure(1), Setup(2, a), Setup(3, b)],
                            [LaunchDescriptor("_Z8setValuePfif", [FLOAT_PTR, INT], [a, b], [5, 2, 1], [32, 1, 1])],
                            EMPTY_DESCRIPTOR))
  {
    var st3 := ScanState([], [Configure(1), Setup(2, a), Setup(3, b)], [], AfterSetup([a, b]));
    var st4 := ScanState([Launch(4)], st3.toReplace,
                         [LaunchDescriptor("_Z8setValuePfif", [FLOAT_PTR, INT], [a, b], [5, 2, 1], [32, 1, 1])],
                         EMPTY_DESCRIPTOR);
    LaunchStep(st3);
    assert AfterSetup([a, b]).(callTypes := [FLOAT_PTR, INT], kernelName := "_Z8setValuePfif")
           == LaunchDescriptor("_Z8setValuePfif", [FLOAT_PTR, INT], [a, b], [5, 2, 1], [32, 1, 1]);
    assert st3.toErase + [Launch(4)] == [Launch(4)];
    assert st3.printed + st4.printed == st4.printed;
    assert [Launch(4), OTHER] == [Launch(4)] + [OTHER];
    ScanCons(st3, Launch(4), [OTHER], st4);
    ClassifyLaunchSequence(a, b);
    assert [OTHER] == [OTHER] + [];
    ScanCons(st4, OTHER, [], st4);
  }

  lemma ScanOfLaunchSequence(a: Value, b: Value)
    ensures Scan(SCAN_START, [Configure(1), Setup(2, a), Setup(3, b), Launch(4), OTHER])
            == Ok(ScanState([Launch(4)], [Configure(1), Setup(2, a), Setup(3, b)],
                            [LaunchDescriptor("_Z8setValuePfif", [FLOAT_PTR, INT], [a, b], [5, 2, 1], [32, 1, 1])],
                            EMPTY_DESCRIPTOR))
  {
    assert [Configure(1), Setup(2, a), Setup(3, b), Launch(4), OTHER]
        == [Configure(1), Setup(2, a), Setup(3, b)] + [Launch(4), OTHER];
    ScanOfSetupPrefix(a, b, [Launch(4), OTHER]);
    ScanOfLaunchSuffix(a, b);
  }

  /** The erase loop over the single launch succeeds: the launch's result is unused. */
  lemma PatchOutcomeOfLaunchSequence(a: Value, b: Value)
    ensures var p := PatchSpec([Configure(1), Setup(2, a), Setup(3, b), Launch(4), OTHER]);
            p.outcome == Pass
            && p.printed == [LaunchDescriptor("_Z8setValuePfif", [FLOAT_PTR, INT], [a, b], [5, 2, 1], [32, 1, 1]), EMPTY_DESCRIPTOR]
  {
    var body := [Configure(1), Setup(2, a), Setup(3, b), Launch(4), OTHER];
    ScanOfLaunchSequence(a, b);
    LaunchLemmas.EraseAllFailsIffUsed(body, [Launch(4)]);
  }

  /** How the scan classifies the instructions of the sequence. */
  lemma ClassifyLaunchSequence(a: Value, b: Value)
    ensures Classify(Configure(1)) == ConfigureCall
    ensures Classify(Setup(2, a)) == SetupArgumentCall && Classify(Setup(3, b)) == SetupArgumentCall
    ensures Classify(Launch(4)) == LaunchCall && Classify(OTHER) == NotProtocol
  {
    DistinctNames();
  }

  /** A protocol call at the head of a list is not among its non-protocol instructions. */
  lemma SkipProtocolCall(x: Inst, rest: seq<Inst>)
    requires Classify(x) != NotProtocol
    ensures LaunchLemmas.CallsOf([x] + rest, {NotProtocol}) == LaunchLemmas.CallsOf(rest, {NotProtocol})
  {
    CallsOfCons(x, rest, {NotProtocol});
    assert [] + LaunchLemmas.CallsOf(rest, {NotProtocol}) == LaunchLemmas.CallsOf(rest, {NotProtocol});
  }

  /** Of the five instructions, only the non-call one is not part of the launch protocol. */
  lemma NonProtocolPartOfLaunchSequence(a: Value, b: Value)
    ensures LaunchLemmas.CallsOf([Configure(1), Setup(2, a), Setup(3, b), Launch(4), OTHER], {NotProtocol}) == [OTHER]
  {
    ClassifyLaunchSequence(a, b);
    var r4 := [OTHER];
    var r3 := [Launch(4)] + r4;
    var r2 := [Setup(3, b)] + r3;
    var r1 := [Setup(2, a)] + r2;
    var r0 := [Configure(1)] + r1;
    assert r0 == [Configure(1), Setup(2, a), Setup(3, b), Launch(4), OTHER];
    CallsOfCons(OTHER, [], {NotProtocol});
    assert [OTHER] + [] == r4;
    SkipProtocolCall(Launch(4), r4);
    SkipProtocolCall(Setup(3, b), r3);
    SkipProtocolCall(Setup(2, a), r2);
    SkipProtocolCall(Configure(1), r1);
  }

  /**
   * Patching that function prints the launch with both argument values, the kernel's two
   * parameter types and the configured dimensions, and leaves only the other instruction.
   */
  lemma PatchOfLaunchSequence(a: Value, b: Value)
    ensures PatchSpec([Configure(1), Setup(2, a), Setup(3, b), Launch(4), OTHER])
            == Patched(Pass,
                       [LaunchDescriptor("_Z8setValuePfif", [FLOAT_PTR, INT], [a, b], [5, 2, 1], [32, 1, 1]), EMPTY_DESCRIPTOR],
                       [OTHER])
  {
    var body := [Configure(1), Setup(2, a), Setup(3, b), Launch(4), OTHER];
    var p := PatchSpec(body);
    PatchOutcomeOfLaunchSequence(a, b);
    LaunchSequenceIdsUnique(a, b);
    LaunchLemmas.PatchRemovesExactlyProtocolCalls(body);
    NonProtocolPartOfLaunchSequence(a, b);
    assert p.body == [OTHER];
    assert p == Patched(p.outcome, p.printed, p.body);
  }

  lemma LaunchSequenceIdsUnique(a: Value, b: Value)
    ensures LaunchLemmas.UniqueIds([Configure(1), Setup(2, a), Setup(3, b), Launch(4), OTHER])
  {
  }
}

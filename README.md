# Two passes of a CUDA-to-OpenCL translator, modelled in Dafny

This project models two passes of a translator that turns CUDA programs, compiled to LLVM IR, into
OpenCL.

- **The device-side instruction dumper.** For each IR instruction of a kernel it fills in that
  instruction's `LocalValueInfo`:
  - the OpenCL expression that stands for the value;
  - the statements to emit before it;
  - whether it needs a variable declaration;
  - its address space.

  It dispatches on the opcode. Binary operators become infix expressions. A `store` becomes
  `ptr[0] = value`. An `alloca` is named after its variable. An `insertvalue` walks its index
  path to build an assignment to one element or field.
- **The host-side launch patcher.** It scans one host function for the CUDA runtime's launch
  protocol:
  - `cudaConfigureCall` carries the grid and block dimensions, packed into integers;
  - each `cudaSetupArgument` carries one kernel argument;
  - `cudaLaunch` carries the kernel.

  It collects that information into a `LaunchCallInfo` and prints it. It then deletes the
  `cudaLaunch` calls, throwing if one of them still has uses, and replaces the other protocol
  calls by the constant 0.

## How the model is built

Both passes change objects in place, so the model keeps their shape:

- **Classes.** `LocalValueInfo` and `NewInstructionDumper` for the dumper; `LaunchCallInfo`,
  whose `grid` and `block` are arrays of length 3, and `HostFunction` for the patcher. Their
  methods carry `modifies` clauses.
- **The dumper's methods.** Each is proved against a pure function of the old state (module
  `InstructionDumper`): `StoreSpec`, `AllocaSpec`, `BinaryOperatorSpec`, `InsertValueSpec`,
  and `Generate` for the dispatch. The `insertvalue` loop is proved against the recursive
  `Walk`.
- **The patcher's methods.** They are proved against `WithLaunchTypes`, `WithArgValue`,
  `ConfiguredDescriptor` and `Render`. The scan and the two commit loops of `patchFunction`
  are proved against `Scan`, `EraseAll` and `ReplaceAllWithZero`, combined in `PatchSpec`
  (module `HostPatch`).
- **The properties.** They are lemmas about those functions, in modules `InstructionDumper`,
  `LaunchLemmas` and `LaunchScenario`.

Exceptions, failed `map::at` lookups, failed `cast<>`s and null dereferences of a failed
`dyn_cast<>` are explicit `Err`/`Fail` values. Where the source has already changed state before
it throws, the model changes that state too.

Collaborators whose code is not part of this model are parameters (uninterpreted functions):

- `stripOuterParams`;
- `TypeDumper::dumpType`;
- `getName(StructType *)`;
- the address space that `setAddressSpaceFrom` reads off a value;
- `Type::print`.

File by file:

- `outcomes.dfy`: `Option`, `Result` and `Outcome`.
- `decimal.dfy`: decimal printing of integers and its parse inverse.
- `ir_types.dfy`: the LLVM types both passes inspect, plus `uint32`/`int32`/`uint64`.
- `instruction_dumper.dfy`: `src/new_instruction_dumper.cpp`.
- `host_patch.dfy`: `ir-to-opencl/patch-hostside.cpp`.
- `launch_lemmas.dfy`: properties of the patch, and a complete launch sequence worked
  through the patch.

## Model

| member | source | states |
|---|---|---|
| InstructionDumper.SymbolTable | src/new_instruction_dumper.cpp:201-249 | the opcode switch read both ways: an opcode prints as a symbol exactly when it is among the opcodes listed for that symbol; exactly URem and FRem have no case |
| InstructionDumper.SingleDigitIndexText | src/new_instruction_dumper.cpp:130 | an index below 10 prints as its one digit |
| InstructionDumper.Walk | src/new_instruction_dumper.cpp:117-153 | the index walk fails only with "type not implemented" or with a struct index past the last field |
| InstructionDumper.WalkSucceedsIffSupported | src/new_instruction_dumper.cpp:117-153 | the walk succeeds exactly when every index steps through a pointer, an array, or a struct field that exists |
| InstructionDumper.WalkConcat | src/new_instruction_dumper.cpp:117-153 | indices are applied left to right: walking p + q is walking p, then q from where p stopped, and the `d == 0` wrap happens only at the first index |
| InstructionDumper.GenericStructFieldAccess | src/new_instruction_dumper.cpp:142-148 | through structs other than float4, the walk succeeds and appends exactly `.f<idx>` per index |
| InstructionDumper.SequentialIndexing | src/new_instruction_dumper.cpp:120-131 | through pointers and arrays, the walk appends `[<idx>]` per index; the base is wrapped as `(&base)` only at index 0 and only when that index leads into an array |
| InstructionDumper.NestedStructExample | src/new_instruction_dumper.cpp:142-148 | indices [0, 1] on a nested generic struct with base `s` give `s.f0.f1` |
| InstructionDumper.ArrayOfArraysExample | src/new_instruction_dumper.cpp:120-131 | indices [1, 2] on an array of arrays named `m` give `(&m)[1][2]` |
| InstructionDumper.Float4ElementAccess | src/new_instruction_dumper.cpp:135-141 | for any base, any `struct.float4` type and any index that names a field, the walk casts the base to a pointer to that field's type and subscripts it with the index |
| InstructionDumper.Float4Example | src/new_instruction_dumper.cpp:135-141 | example: index 2 into a float4 named `v` gives `((<float*>)&v)[2]` |
| InstructionDumper.UnsupportedTypeRejected | src/new_instruction_dumper.cpp:149-152 | for any base and any non-empty index list, an index into a type that is neither a pointer, an array nor a struct throws "type not implemented in insertvalue" |
| InstructionDumper.StructIndexPastEnd | src/new_instruction_dumper.cpp:132-148 | an index past the last field of a struct fails with the out-of-range error, whatever follows it |
| InstructionDumper.ScalarRejected | src/new_instruction_dumper.cpp:149-152 | example: index 0 into an `i32` throws "type not implemented in insertvalue" |
| InstructionDumper.BinaryOperatorEmission | src/new_instruction_dumper.cpp:174-194 | a binary operator with a case sets the expression to `lhs op rhs` and the address space to 0, and changes nothing else |
| InstructionDumper.AddExample | src/new_instruction_dumper.cpp:217-219 | `add x, y` becomes `x + y` |
| InstructionDumper.UnknownOpcodeIff | src/new_instruction_dumper.cpp:336-338 | "unknown opcode" is thrown exactly for the opcodes without an emitter, and it changes nothing |
| InstructionDumper.StoreEmission | src/new_instruction_dumper.cpp:51-69 | a store appends `ptr[0] = stripOuterParams(value)`, takes the pointer's address space, and leaves the expression alone |
| InstructionDumper.StoreExample | src/new_instruction_dumper.cpp:61-65 | storing `(1.0f)` through `out` emits `out[0] = 1.0f` |
| InstructionDumper.AllocaEmission | src/new_instruction_dumper.cpp:71-78 | an alloca's expression is its own name, and it has no other effect |
| InstructionDumper.InsertValueUndefBase | src/new_instruction_dumper.cpp:84-109 | over undef, operand 0 is never looked up, the value is marked for declaration, and its expression is its own name |
| InstructionDumper.InsertValueEmission | src/new_instruction_dumper.cpp:80-172 | a successful insertvalue appends exactly `walkedLhs = insertedExpr`, and its expression is the incoming base, not the walked left-hand side |
| InstructionDumper.InsertValueNestedStructExample | src/new_instruction_dumper.cpp:80-172 | inserting `v` at [0, 1] into `s` emits `s.f0.f1 = v` and keeps `s` as the expression |
| InstructionDumper.MissingOperandAborts | src/new_instruction_dumper.cpp:58-59 | an operand without an info makes the `map::at` lookup throw; no expression, statement or declaration is produced |
| InstructionDumper.InlineStatementsAppendOnly | src/new_instruction_dumper.cpp:65 | emitters only append, at most one statement; one is appended exactly when a store or an insertvalue succeeds |
| InstructionDumper.DeclarationOnlyForUndefInsert | src/new_instruction_dumper.cpp:101-108 | only an insertvalue over undef asks for a declaration |
| InstructionDumper.LocalValueInfo.constructor | src/new_instruction_dumper.cpp:51-55 | an info holds its value, its name and the given expression, statements, declaration flag and address space (the fields the emitters read and write; `LocalValueInfo.h` is not part of this model) |
| InstructionDumper.NewInstructionDumper.constructor | src/new_instruction_dumper.cpp:27-49 | the dumper holds the value-info map it is given, and it is valid when every info is filed under its own value |
| InstructionDumper.NewInstructionDumper.DumpStore | src/new_instruction_dumper.cpp:51-69 | the new state and outcome are StoreSpec of the old state; the address space is set before the lookups can throw |
| InstructionDumper.NewInstructionDumper.DumpAlloca | src/new_instruction_dumper.cpp:71-78 | the new state is AllocaSpec of the old one |
| InstructionDumper.NewInstructionDumper.DumpInsertValue | src/new_instruction_dumper.cpp:80-172 | the new state and outcome are InsertValueSpec of the old state; the loop keeps the invariant that the walk so far plus the rest equals the whole Walk |
| InstructionDumper.NewInstructionDumper.DumpBinaryOperator | src/new_instruction_dumper.cpp:174-194 | the new state and outcome are BinaryOperatorSpec of the old state |
| InstructionDumper.NewInstructionDumper.RunGeneration | src/new_instruction_dumper.cpp:196-340 | clears needDependencies, and the new state and outcome are Generate of the instruction and the old state |
| Decimal.NatToString | src/new_instruction_dumper.cpp:130 | the text is a non-empty string of decimal digits without a leading zero |
| Decimal.IntToString | ir-to-opencl/patch-hostside.cpp:85 | the text of an integer is non-empty and starts with '-' exactly for negative numbers |
| Decimal.NatRoundTrip | src/new_instruction_dumper.cpp:130 | parsing the printed digits gives back the number |
| Decimal.IntRoundTrip | ir-to-opencl/patch-hostside.cpp:85 | parsing the printed integer gives back the integer |
| Decimal.IntToStringInjective | ir-to-opencl/patch-hostside.cpp:85 | different integers print differently |
| IrTypes.ToInt32 | src/new_instruction_dumper.cpp:118 | copying an unsigned into an `int` keeps the value modulo 2^32, and keeps it exactly below 2^31 |
| HostPatch.LaunchCallInfo.constructor | ir-to-opencl/patch-hostside.cpp:57-73 | a fresh info has an empty kernel name, empty type and value lists, and six zero dimensions |
| HostPatch.ReadUint32 | ir-to-opencl/patch-hostside.cpp:153-156 | a constant that fits in 32 bits is read unchanged |
| HostPatch.DecodeXY | ir-to-opencl/patch-hostside.cpp:169-171 | the decoded x is always below 2^31 |
| HostPatch.ConstantArg | ir-to-opencl/patch-hostside.cpp:169 | the `cast<ConstantInt>` of an argument succeeds exactly when the argument exists and is an integer constant |
| HostPatch.Classify | ir-to-opencl/patch-hostside.cpp:203-224 | only direct calls with a callee can be protocol calls |
| HostPatch.Without | ir-to-opencl/patch-hostside.cpp:234 | removal only drops instructions: what is left came from the list and has none of the removed ids |
| HostPatch.GetLaunchTypes | ir-to-opencl/patch-hostside.cpp:118-134 | the new LaunchCallInfo is WithLaunchTypes of the old one |
| HostPatch.GetLaunchArgValue | ir-to-opencl/patch-hostside.cpp:136-147 | the new LaunchCallInfo is WithArgValue of the old one; the loop invariant is that the values pushed so far are the stores among the users seen so far |
| HostPatch.GetBlockGridDimensions | ir-to-opencl/patch-hostside.cpp:158-192 | with the shared-memory check, the new dimensions are those of ConfiguredDescriptor |
| HostPatch.WriteLaunchCallInfo | ir-to-opencl/patch-hostside.cpp:75-116 | the text written is Render of the info |
| HostPatch.HostFunction.constructor | ir-to-opencl/patch-hostside.cpp:194 | a function holds its name and its instructions |
| HostPatch.PatchFunction | ir-to-opencl/patch-hostside.cpp:194-247 | the outcome, the printed infos and the new instruction list are PatchSpec of the old instruction list |
| HostPatch.PatchModule | ir-to-opencl/patch-hostside.cpp:250-275 | every function is patched as PatchOne says, only `_Z14launchSetValuePfif` is touched, and the first failure stops the walk and leaves the later functions unchanged |
| LaunchLemmas.CallsOf | ir-to-opencl/patch-hostside.cpp:200-227 | the selection of a function's instructions by call kind holds exactly the instructions of those kinds |
| LaunchLemmas.DecodeRoundTrip | ir-to-opencl/patch-hostside.cpp:169-171 | an x below 2^31 and any y, packed as clang packs a dim3, decode back to (x, y) |
| LaunchLemmas.DecodeDropsBit31 | ir-to-opencl/patch-hostside.cpp:170 | the mask drops bit 31 of x |
| LaunchLemmas.DecodeExample | ir-to-opencl/patch-hostside.cpp:169-171 | 0x0000000200000005 decodes to x=5, y=2 |
| LaunchLemmas.ConfigureRoundTrip | ir-to-opencl/patch-hostside.cpp:158-188 | a configure call for dimensions below 2^31 with no shared memory sets exactly those grid and block dimensions, whatever the stream argument |
| LaunchLemmas.ConfigureSucceedsIff | ir-to-opencl/patch-hostside.cpp:169-191 | configure succeeds exactly when arguments 0-4 are integer constants and the shared-memory size is 0; it changes only the dimensions |
| LaunchLemmas.SharedMemoryAcceptedAsBuilt | ir-to-opencl/patch-hostside.cpp:189 | as built, a configure call asking for 16 bytes of shared memory is accepted; the intended check rejects it |
| LaunchLemmas.AsBuiltAgreesWhenSharedMemoryIsZero | ir-to-opencl/patch-hostside.cpp:158-192 | wherever the intended check passes, the as-built reading gives the same result |
| LaunchLemmas.LaunchOfKernel | ir-to-opencl/patch-hostside.cpp:120-131 | launching a constant-expression kernel pointer appends the kernel's parameter types in order and sets the kernel name |
| LaunchLemmas.LaunchOfOtherOperand | ir-to-opencl/patch-hostside.cpp:121 | any other launch operand leaves the info unchanged |
| LaunchLemmas.StoredValuesConcat | ir-to-opencl/patch-hostside.cpp:139-146 | the collected values of two runs of users are those of the first followed by those of the second |
| LaunchLemmas.StoredValuesAreTheStores | ir-to-opencl/patch-hostside.cpp:139-146 | one value is collected per store user, the values are exactly those the stores write, and they come in use-list order: the first user's value before the rest |
| LaunchLemmas.SetupArgumentAppends | ir-to-opencl/patch-hostside.cpp:136-147 | a setup call only appends to callValues: earlier values, name, types and dimensions are unchanged |
| LaunchLemmas.ScanInstCollects | ir-to-opencl/patch-hostside.cpp:203-224 | one scan step puts a launch on the erase list, a setup or configure call on the replace list, and prints once per launch |
| LaunchLemmas.ScanCollects | ir-to-opencl/patch-hostside.cpp:200-227 | after the scan, the erase list is the launches and the replace list the setup and configure calls, both in program order; one info is printed per launch |
| LaunchLemmas.ScanIgnoresOtherInstructions | ir-to-opencl/patch-hostside.cpp:203-210 | non-calls, calls without a callee or with an unnamed callee, and other callees change nothing and cannot fail |
| LaunchLemmas.LaunchStartsFreshInfo | ir-to-opencl/patch-hostside.cpp:212-216 | a launch prints the current info with the kernel's types and replaces it with a fresh one |
| LaunchLemmas.WithoutWithout | ir-to-opencl/patch-hostside.cpp:229-241 | removing by one id set and then another is removing by their union |
| LaunchLemmas.EraseAllFailsIffUsed | ir-to-opencl/patch-hostside.cpp:229-235 | the erase loop fails exactly when some recorded launch has uses, and then with "cannot erase used instructions" |
| LaunchLemmas.EraseAllRemoves | ir-to-opencl/patch-hostside.cpp:229-235 | a successful erase loop removes exactly the recorded instructions |
| LaunchLemmas.ReplaceAllRemoves | ir-to-opencl/patch-hostside.cpp:236-241 | the replace loop takes exactly the recorded instructions out of the list |
| LaunchLemmas.NothingRemoved | ir-to-opencl/patch-hostside.cpp:229-241 | removing no ids leaves the list as it was |
| LaunchLemmas.WithoutSelects | ir-to-opencl/patch-hostside.cpp:229-241 | removing the ids of the other kinds is selecting the kinds that are kept |
| LaunchLemmas.SelectedId | ir-to-opencl/patch-hostside.cpp:200-227 | with unique ids, an instruction's id is among the ids of the selection exactly when it is selected |
| LaunchLemmas.PatchRemovesExactlyProtocolCalls | ir-to-opencl/patch-hostside.cpp:194-247 | a successful patch leaves exactly the instructions that are not protocol calls, in their original order |
| LaunchLemmas.PatchOutcomeIsErasure | ir-to-opencl/patch-hostside.cpp:228-235 | after a successful scan, the patch's outcome is that of the erase loop, and one more info is printed than there are launches |
| LaunchLemmas.PatchFailsIffLaunchUsed | ir-to-opencl/patch-hostside.cpp:229-233 | after a successful scan, the patch fails exactly when some cudaLaunch call has uses, and then with "cannot erase used instructions" |
| LaunchLemmas.PatchWithoutProtocolCalls | ir-to-opencl/patch-hostside.cpp:194-247 | a function without protocol calls is left as it is, and only a fresh info is printed |
| LaunchLemmas.OnlyThePatchedFunctionChanges | ir-to-opencl/patch-hostside.cpp:258 | functions with any other name are not touched |
| LaunchLemmas.ZeroDimensionsText | ir-to-opencl/patch-hostside.cpp:81-86 | three zero dimensions print as `0, 0, 0` |
| LaunchLemmas.RenderFreshInfoPieces | ir-to-opencl/patch-hostside.cpp:75-116 | a fresh info prints as the concatenation of its empty name, zero dimensions and empty lists |
| LaunchLemmas.RenderFreshInfo | ir-to-opencl/patch-hostside.cpp:75-116 | a fresh info prints as `LaunchCallInfo <<<dim3(0, 0, 0), dim3(0, 0, 0)>>>();` and a newline |
| LaunchScenario.DistinctNames | ir-to-opencl/patch-hostside.cpp:212-220 | the three runtime entry points have distinct, non-empty names |
| LaunchScenario.OneStore | ir-to-opencl/patch-hostside.cpp:139-146 | a slot with one store user and one other user contributes exactly the stored value |
| LaunchScenario.ScanCons | ir-to-opencl/patch-hostside.cpp:200-227 | the scan of x followed by the rest continues from the state after x |
| LaunchScenario.CallsOfCons | ir-to-opencl/patch-hostside.cpp:200-227 | selecting from x followed by the rest is x, if selected, followed by the selection from the rest |
| LaunchScenario.ConfigureStep | ir-to-opencl/patch-hostside.cpp:220-223 | the configure call of the sequence sets grid (5, 2, 1) and block (32, 1, 1) and goes on the replace list |
| LaunchScenario.SetupStep | ir-to-opencl/patch-hostside.cpp:217-219 | a setup call appends its stored value and goes on the replace list |
| LaunchScenario.LaunchStep | ir-to-opencl/patch-hostside.cpp:212-216 | the launch records the kernel's name and two parameter types, prints the info, goes on the erase list and starts a fresh info |
| LaunchScenario.ClassifyLaunchSequence | ir-to-opencl/patch-hostside.cpp:203-224 | the configure, setup and launch calls of the sequence are recognised as such, and the ordinary instruction as no protocol call |
| LaunchScenario.SkipProtocolCall | ir-to-opencl/patch-hostside.cpp:229-241 | a protocol call is not among the instructions the patch keeps |
| LaunchScenario.ScanOfSetupPrefix | ir-to-opencl/patch-hostside.cpp:217-223 | the configure call and two setup calls leave the info with dimensions (5, 2, 1), (32, 1, 1) and both values, all three calls on the replace list, whatever follows |
| LaunchScenario.ScanOfLaunchSuffix | ir-to-opencl/patch-hostside.cpp:212-216 | from there, the launch prints the info with the kernel's name and both types, and the ordinary instruction changes nothing |
| LaunchScenario.LaunchSequenceIdsUnique | ir-to-opencl/patch-hostside.cpp:200-202 | the five instructions of the sequence are distinct |
| LaunchScenario.ScanOfLaunchSequence | ir-to-opencl/patch-hostside.cpp:200-227 | scanning configure, two setups, a launch and an ordinary instruction gives one printed info with both values, both types and the dimensions |
| LaunchScenario.PatchOutcomeOfLaunchSequence | ir-to-opencl/patch-hostside.cpp:228-235 | that patch succeeds and prints the launch's info and then the fresh pending one |
| LaunchScenario.NonProtocolPartOfLaunchSequence | ir-to-opencl/patch-hostside.cpp:200-227 | of those five instructions only the ordinary one is not a protocol call |
| LaunchScenario.PatchOfLaunchSequence | ir-to-opencl/patch-hostside.cpp:194-247 | patching that function gives exactly the ordinary instruction back, with the two infos printed |

## Left out

- Logging to standard output (`cout`) is not modelled. The one exception: `PatchFunction` returns the LaunchCallInfos it prints.
- The `clWriter` objects the dumper attaches are not modelled. Their classes are not part of this model.
- `copyAddressSpace` in `dumpStore` is not modelled. It acts on IR values the model does not hold, and its definition is not part of this model.
- `main`, `parseIRFile`, `verifyFunction`/`verifyModule`, module printing and file streams are not modelled. They are I/O and foreign LLVM calls.
- LLVM's object graph is represented by small datatypes. A host function is one instruction sequence in program order, with basic-block boundaries flattened. Each instruction has a fixed use count and a given list of store users.
- `ReplaceInstWithValue` is modelled as removing the call from the list. Rewriting its uses to read the constant 0 is not modelled, because use lists are not part of this model.
- `getLaunchTypes` finds parameter types only for a global whose value type is a function type. A pointer-typed operand of any other kind yields no types.
- The `readIntConstant_uint32` bit-width assert is not modelled. Like the shared-memory assert, it does not compile unless NDEBUG removes it. `ReadUint32` silently keeps the low 32 bits.
- The stream argument of `cudaConfigureCall` is not checked, which matches the source: its check is commented out.
- `(1 << 31) - 1` overflows a signed `int`. The model assumes the usual two's-complement result, a mask of the low 31 bits.
- `x & ((1 << 31) - 1)` and `x >> 32` are modelled as `x % 2^31` and `x / 2^32` on unsigned integers. `(uint32_t)x` is modelled as `x % 2^32`.
- The failure cases of LLVM asserts and undefined behaviour are modelled as explicit errors: an operand index past the end, a failed `cast<>`, a null result of `dyn_cast<>` that is dereferenced, and a struct index past the last field. The program would crash or abort there.
- After such an error in the middle of `getBlockGridDimensions`, the contents of the dimension arrays are left unspecified. The program ends there.
- When the scan itself fails, the LaunchCallInfos printed before the failure are not modelled.
- `needDependencies` is modelled only as cleared at the start of `runGeneration`.
- The commented-out opcode emitters (compare, casts, GEP, load, call, branch, return, PHI) are not modelled. They fall into the "unknown opcode" failure.
- The globals `single_precision`, `TheContext` and `Builder` are not modelled.

## Findings

| source | as written | input that shows it | evidently intended | confidence | as-written member | corrected member |
|---|---|---|---|---|---|---|
| ir-to-opencl/patch-hostside.cpp:189 | `assert(readIntConstant_uint64(inst->getArgOperand(4)) == 0)` passes a `Value *` where a `ConstantInt *` is required. It compiles only when NDEBUG removes the assert, so the built program never checks the shared-memory size. | a `cudaConfigureCall` with grid 5x2x1, block 32x1x1 and 16 bytes of dynamic shared memory is accepted | reject a configure call whose shared-memory size is not 0 (the comment at line 166 says it must be 0) | not executed; high that the check is absent as built | LaunchLemmas.SharedMemoryAcceptedAsBuilt (on HostPatch.ConfiguredDescriptorAsBuilt) | HostPatch.ConfiguredDescriptor, with LaunchLemmas.ConfigureSucceedsIff |

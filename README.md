# Nuanceur, modelled in Dafny

Nuanceur builds shaders in C++. Operator overloads on typed "value" objects (`CFloat4Value`,
`CIntValue`, ...) append statements to a `CShaderBuilder`, which records symbols (inputs,
outputs, variables, temporaries, constants, uniforms, textures) and a flat list of three-address
statements. Generators then turn a builder into SPIR-V words, GLSL text or HLSL text. An older,
smaller builder and SPIR-V generator (`src/ShaderBuilder.cpp`, `src/SpirvShaderGenerator.cpp`)
live beside the current ones.

This project models that core and proves what it promises:

- `wrappers.dfy`, `ir.dfy`, `swizzle.dfy` (modules `Wrappers`, `Ir`, `Swizzle`): the symbol,
  reference and statement records, 32-bit wrap-around, and the swizzle helpers.
- `program.dfy` (`ShaderProgram`): the read side of a builder as a value, its look-ups, and the
  well-formedness the builder keeps (indices drawn densely from four counters, side tables keyed
  by drawn indices).
- `builder.dfy` (`Builder`): `CShaderBuilder` as a class whose `Create*` methods update its
  fields in place.
- `values.dfy` (`Values`): the value views (Value, Lvalue, Rvalue of each width) and the swizzle
  selectors reached through `operator ->`.
- `operations.dfy` (`Operations`): the operator overloads and free functions of
  `Operations.cpp`, as methods on the builder.
- `spirv.dfy`, `spirv_encoding.dfy`, `spirv_support.dfy`, `spirv_passes.dfy`,
  `spirv_blocks.dfy`, `spirv_lowering.dfy`, `spirv_module.dfy`, `spirv_generator.dfy`: the SPIR-V
  generator. This covers the word encoding (`WriteOp`, string packing), the declaration passes
  (pointer ids, uniform blocks, textures, constants), the statement lowering and the
  `Generate` driver, which is a class writing into a word stream.
- `text.dfy`, `glsl.dfy`, `hlsl.dfy`: the GLSL and HLSL generators (pure string builders).
- `legacy_builder.dfy`, `legacy_generator.dfy` (`LegacyBuilder`, `LegacySpirv`): the legacy
  builder and the legacy SPIR-V generator.

C++ `assert`s are contract violations. Every model function or method returns them as an error
result (`Err`, `Fail`) instead of requiring them away, so each error path is part of what is
proved. Unsigned counters and ids are `u32` values kept in `[0, 2^32)`, and every increment
wraps explicitly. Floating-point values travel as their 32-bit patterns (`Float`); nothing computes
with them.

## Model

| member | source | states |
|---|---|---|
| Swizzle.Lanes | include/nuanceur/builder/ShaderBuilder.h:30-52 | the lanes each `SWIZZLE_TYPE` reads, one to four, each below 4 |
| Swizzle.IsIdentitySwizzle | src/builder/ShaderBuilder.cpp:5-11 | true exactly for the swizzles that read a prefix of the vector in place (X, XY, XYZ, XYZW) |
| Swizzle.ElementCount | src/builder/ShaderBuilder.cpp:13-24 | defined only for X and Y, where it is the number of lanes read; any other swizzle is a contract violation |
| Swizzle.Transform | src/builder/ShaderBuilder.cpp:26-50 | defined exactly for an identity first swizzle or ZW followed by X or Y; an identity passes the second through, and the result always reads the lanes of the second applied to the first |
| Ir.SourceCount | include/nuanceur/builder/ShaderBuilder.h:213-241 | accepted exactly when the source slots are filled from the first without a gap; the count is then at most 4 and slot k is null exactly from the count on |
| ShaderProgram.Insert | src/builder/ShaderBuilder.cpp:151 | `unordered_map::insert`: the key set grows by the key; every existing entry is kept unchanged and an absent key gets the value |
| ShaderProgram.GetMetadata | src/builder/ShaderBuilder.cpp:52-57 | the recorded value for a present key, the default for an absent one |
| ShaderProgram.GetInputSemantic | src/builder/ShaderBuilder.cpp:69-73 | succeeds exactly for an input symbol whose index is recorded, returning the recorded semantic |
| ShaderProgram.GetOutputSemantic | src/builder/ShaderBuilder.cpp:75-79 | succeeds exactly for an output symbol whose index is recorded, returning the recorded semantic |
| ShaderProgram.GetVariableName | src/builder/ShaderBuilder.cpp:81-85 | succeeds exactly for a variable symbol whose index is recorded, returning its name |
| ShaderProgram.GetUniformName | src/builder/ShaderBuilder.cpp:87-91 | succeeds exactly for a uniform symbol whose index is recorded, returning its name |
| ShaderProgram.GetTemporaryValue | src/builder/ShaderBuilder.cpp:93-104 | succeeds exactly for a Float4 temporary; the recorded payload, or (0, 0, 0, 0) when none |
| ShaderProgram.GetTemporaryValueInt | src/builder/ShaderBuilder.cpp:106-117 | succeeds exactly for an Int4 or Uint4 temporary; the recorded payload, or (0, 0, 0, 0) when none |
| ShaderProgram.GetTemporaryValueBool | src/builder/ShaderBuilder.cpp:119-130 | succeeds exactly for a Bool temporary; the recorded payload, or false when none |
| ShaderProgram.DenseIndicesAreRange | include/nuanceur/builder/ShaderBuilder.h:311-314 | until a counter wraps, the symbols drawn from it are numbered 0, 1, 2, ... in creation order |
| ShaderProgram.IndicesBelowCount | include/nuanceur/builder/ShaderBuilder.h:311-314 | until a counter wraps, every index drawn from it is below the counter, so the next index is fresh |
| ShaderProgram.AppendKeepsWellFormed | src/builder/ShaderBuilder.cpp:142-468 | one `Create*` step keeps the program well formed: dense counters, textures at index -1, every side table keyed by drawn indices of its location |
| ShaderProgram.AppendKeepsCounted | src/builder/ShaderBuilder.cpp:142-468 | one `Create*` step keeps the program well formed and each builder counter equal to the number of symbols drawn from it, modulo 2^32 |
| Builder.ShaderBuilder.constructor | include/nuanceur/builder/ShaderBuilder.h:308-322 | a new builder has no symbols, statements or table entries and every counter at 0 |
| Builder.ShaderBuilder.SetMetadata | src/builder/ShaderBuilder.cpp:59-62 | the entry is overwritten, and later look-ups of the key see the value whatever their default |
| Builder.ShaderBuilder.InsertStatement | src/builder/ShaderBuilder.cpp:137-140 | exactly one statement is appended; the earlier ones are unchanged |
| Builder.ShaderBuilder.CreateInput | src/builder/ShaderBuilder.cpp:142-182 | a new input of the given type numbered by the input counter, which moves on by one (mod 2^32); the semantic is inserted and, before the counter wraps, read back by `GetInputSemantic` |
| Builder.ShaderBuilder.CreateOutput | src/builder/ShaderBuilder.cpp:184-196 | a new Float4 output numbered by the output counter; its semantic is inserted and read back by `GetOutputSemantic` |
| Builder.ShaderBuilder.CreateVariable | src/builder/ShaderBuilder.cpp:198-252 | a new named variable numbered by the variable counter; its name is inserted and read back by `GetVariableName` |
| Builder.ShaderBuilder.CreateTemporary | src/builder/ShaderBuilder.cpp:254-300 | a new computed temporary of the given type numbered by the shared temporary counter |
| Builder.ShaderBuilder.CreateConstant | src/builder/ShaderBuilder.cpp:302-317 | a new Float4 temporary; its payload is inserted and read back by `GetTemporaryValue`; equal payloads still draw new indices |
| Builder.ShaderBuilder.CreateConstantInt | src/builder/ShaderBuilder.cpp:319-334 | a new Int4 temporary whose payload is read back by `GetTemporaryValueInt` |
| Builder.ShaderBuilder.CreateConstantUint | src/builder/ShaderBuilder.cpp:336-351 | a new Uint4 temporary; its lanes are stored reinterpreted as int32 and read back unchanged after converting to uint32 |
| Builder.ShaderBuilder.CreateConstantBool | src/builder/ShaderBuilder.cpp:353-367 | a new Bool temporary whose payload is read back by `GetTemporaryValueBool` |
| Builder.ShaderBuilder.CreateUniform | src/builder/ShaderBuilder.cpp:369-442 | a new named uniform in its unit, numbered by the counter it shares with temporaries; its name is read back by `GetUniformName` |
| Builder.ShaderBuilder.CreateTexture | src/builder/ShaderBuilder.cpp:444-468 | a texture or image in its unit that draws no counter: its index is always -1 |
| Builder.ShaderBuilder.CreateOptionalInput | src/builder/ShaderBuilder.cpp:470-473 | `CreateInput` when available, otherwise the null symbol with nothing changed |
| Builder.ShaderBuilder.CreateOptionalOutput | src/builder/ShaderBuilder.cpp:475-478 | `CreateOutput` when available, otherwise the null symbol with nothing changed |
| Builder.ShaderBuilder.CreateOptionalUniformMatrix | src/builder/ShaderBuilder.cpp:480-483 | a matrix uniform in unit 0 when available, otherwise the null symbol with nothing changed |
| Builder.InputCreated | src/builder/ShaderBuilder.cpp:142-154 | appending an input keeps the counters exact and its semantic readable before the counter wraps |
| Builder.OutputCreated | src/builder/ShaderBuilder.cpp:184-196 | appending an output keeps the counters exact and its semantic readable |
| Builder.VariableCreated | src/builder/ShaderBuilder.cpp:198-210 | appending a variable keeps the counters exact and its name readable |
| Builder.TemporaryCreated | src/builder/ShaderBuilder.cpp:254-264 | appending a temporary keeps the counters exact |
| Builder.ConstantCreated | src/builder/ShaderBuilder.cpp:302-317 | appending a Float4 constant keeps the counters exact and its payload readable |
| Builder.ConstantIntCreated | src/builder/ShaderBuilder.cpp:319-334 | appending an Int4 or Uint4 constant keeps the counters exact and its payload readable |
| Builder.ConstantBoolCreated | src/builder/ShaderBuilder.cpp:353-367 | appending a Bool constant keeps the counters exact and its payload readable |
| Builder.UniformCreated | src/builder/ShaderBuilder.cpp:369-382 | appending a uniform keeps the counters exact and its name readable |
| Builder.TextureCreated | src/builder/ShaderBuilder.cpp:444-455 | appending a texture changes no counter |
| Values.DefaultSwizzle | include/nuanceur/builder/Float3Value.h:11-56 | every default swizzle reads a prefix in place, and it reads exactly the view's width except for the Float3 Rvalue, whose default is XYZW |
| Values.NewView | include/nuanceur/builder/Float4Value.h:14-65 | a view keeps its kind and symbol; an Lvalue, or a view built without a swizzle, gets the default swizzle, and otherwise the given one |
| Values.DefaultViewReadsItsLanes | include/nuanceur/builder/Int4Value.h:11-64 | a defaulted view (other than the Float3 Rvalue) reads exactly lanes 0 up to its width |
| Values.Float2Arrow | include/nuanceur/builder/Float2Value.h:15-19 | `operator ->` is defined exactly for an unswizzled (XY) view and reaches the selector over the bare symbol |
| Values.FloatSelect4 | include/nuanceur/builder/FloatSwizzleSelector4.h:10-81 | exactly the twelve declared accessors, each the stored symbol under its own swizzle, float-typed |
| Values.SwizzleSelect4 | include/nuanceur/builder/SwizzleSelector4.h:9-40 | exactly xy, xyz, xxxx and xyzw over the stored symbol |
| Values.FloatSelect | include/nuanceur/builder/FloatSwizzleSelector.h:10-31 | exactly x and xxx over the stored symbol |
| Values.UintSelect4 | include/nuanceur/builder/UintSwizzleSelector4.h:10-56 | exactly x, y, z, w, xyz, xxxx and xyzw over the stored symbol, uint-typed |
| Values.IntSelect4 | include/nuanceur/builder/IntSwizzleSelector4.h:10-71 | composes each accessor with the stored swizzle through `TransformSwizzle`: defined exactly where that is; the result reads the accessor's lanes of the stored view |
| Values.Float2SelectIgnoresView | include/nuanceur/builder/Float2Value.h:22-26 | two Float2 views of one symbol that pass the guard select the same references: the selector ignores the view's swizzle |
| Values.Int4DefaultSelect | include/nuanceur/builder/Int4Value.h:20-25 | through a fresh Int4 view every declared accessor succeeds and yields its own swizzle |
| Operations.ShapeOfTemp | src/builder/Operations.cpp:11-757 | every operator's temporary is a four-lane or bool temporary, of its result's scalar type except for `Min` on Uint4 |
| Operations.MakeStatementSourceCount | include/nuanceur/builder/ShaderBuilder.h:200-241 | a statement built from real operands passes `GetSourceCount`, which counts exactly those operands |
| Operations.Apply | src/builder/Operations.cpp:11-62 | a value operator fails, changing nothing, exactly when a checked operand is null; otherwise it draws one temporary, appends one statement writing it from the operands, and returns an Rvalue over it |
| Operations.CommandStatement | src/builder/Operations.cpp:63-72 | an assignment writes its left operand from its right; a store has no destination and three sources; the control statements carry no operand except IF_BEGIN's condition |
| Operations.Perform | src/builder/Operations.cpp:527-792 | a command fails, changing nothing, exactly when a checked operand is null; otherwise it appends exactly its one statement and creates no symbol |
| Operations.NewFloatLiteral | src/builder/Operations.cpp:335-367 | one Float4 constant whose unused lanes are 0, viewed at the literal's width; no statement |
| Operations.NewIntLiteral | src/builder/Operations.cpp:409-441 | one Int4 constant whose unused lanes are 1; no statement |
| Operations.NewUintLiteral | src/builder/Operations.cpp:463-479 | one Uint4 constant whose unused lanes are 1, stored reinterpreted as int32; no statement |
| Operations.NewBoolLiteral | src/builder/Operations.cpp:501-505 | one Bool constant; no statement |
| SpirvEncoding.Header | include/nuanceur/generators/SpirvShaderGenerator.h:103-104 | the header word carries the word count (mod 2^16) in its high half and the opcode in its low half |
| SpirvEncoding.Encode | include/nuanceur/generators/SpirvShaderGenerator.h:97-106 | an instruction is one header word then its operand words unchanged; the header's low half is the opcode and, below 2^16 words, its high half is the instruction's word count |
| SpirvEncoding.NoOperandWriteOp | include/nuanceur/generators/SpirvShaderGenerator.h:92-95 | the operand-less overload writes the same single word the general overload would write for no operands |
| SpirvEncoding.EncodeAllAppend | include/nuanceur/generators/SpirvShaderGenerator.h:104-105 | writing one more instruction appends exactly its words to the stream |
| SpirvEncoding.EncodeAllConcat | include/nuanceur/generators/SpirvShaderGenerator.h:104-105 | the stream of two runs of instructions is the first run's words followed by the second's |
| SpirvEncoding.EncodeAllCons | include/nuanceur/generators/SpirvShaderGenerator.h:104-105 | the first instruction's words open the stream |
| SpirvEncoding.DecodeEncodeAll | include/nuanceur/generators/SpirvShaderGenerator.h:97-106 | a word-count reader recovers exactly the instructions written, for operand lists below 2^16 words |
| SpirvEncoding.EncodeAllDecode | include/nuanceur/generators/SpirvShaderGenerator.h:97-106 | every stream that reader accepts is the encoding of what it reads, so the framing is unambiguous |
| SpirvEncoding.StringWords | include/nuanceur/generators/SpirvShaderGenerator.h:32-33 | a string of n bytes takes (n + 4) / 4 words, terminator included |
| SpirvEncoding.StringWordsByteAt | include/nuanceur/generators/SpirvShaderGenerator.h:37-43 | byte k of the packed words, least significant byte first, is byte k of the string, its terminator or padding |
| SpirvEncoding.StringWordsBytes | include/nuanceur/generators/SpirvShaderGenerator.h:30-46 | the packed bytes are the string followed by one to four zero bytes |
| SpirvEncoding.StringRoundTrip | include/nuanceur/generators/SpirvShaderGenerator.h:30-46 | reading the packed words up to the first zero byte gives back the string |
| SpirvEncoding.PackString | include/nuanceur/generators/SpirvShaderGenerator.h:30-46 | the packing loop, with `stringLength` counting down, produces exactly the packed literal words |
| SpirvEncoding.PackStep | include/nuanceur/generators/SpirvShaderGenerator.h:37-44 | one turn of the loop appends word i of the packed string; bytes the guards skip lie in the zero padding |
| SpirvEncoding.PromoteSignedChar | include/nuanceur/generators/SpirvShaderGenerator.h:38-41 | a signed char below 0x80 promotes to itself; one from 0x80 up sets all 24 upper bits |
| SpirvEncoding.SignedCharPacking | include/nuanceur/generators/SpirvShaderGenerator.h:38-41 | as written, "é" (0xC3 0xA9) packs to 0xFFFFFFC3, which no longer reads back as the string; the unsigned packing 0xA9C3 does |
| SpirvEncoding.ConvertParam | include/nuanceur/generators/SpirvShaderGenerator.h:16-57 | integers become their value mod 2^32, enums their value, floats their bit pattern, vectors their words verbatim, strings words that read back as the string |
| SpirvEncoding.ConvertParamsAppend | include/nuanceur/generators/SpirvShaderGenerator.h:59-70 | converting a parameter list converts each part in order and concatenates |
| SpirvEncoding.ConvertNumbers | include/nuanceur/generators/SpirvShaderGenerator.h:16-21 | a list of integers gives one word per integer, each its value mod 2^32 |
| SpirvSupport.MapSemanticToLocation | src/generators/SpirvShaderGenerator.cpp:1209-1231 | succeeds exactly for a position at index 0, a texture coordinate or the system colour; texture coordinate i gets 1 + i (mod 2^32), the others 0 |
| SpirvSupport.TexCoordLocations | src/generators/SpirvShaderGenerator.cpp:1220-1221 | distinct texture coordinates get distinct locations, and only index 0xFFFFFFFF wraps onto the position's location 0 |
| SpirvSupport.Shuffle | src/generators/SpirvShaderGenerator.cpp:1153-1154 | each result lane is the chosen lane of the first vector (component below 4) or of the second (component from 4) |
| SpirvSupport.Pick | include/nuanceur/builder/ShaderBuilder.h:30-52 | the lanes a swizzle reads, in order |
| SpirvSupport.ShuffleComponents | src/generators/SpirvShaderGenerator.cpp:1126-1155 | a swizzled Float4 load is supported exactly for Y, Z, W and WW; its components start with the swizzle's own lanes |
| SpirvSupport.SwizzledLoadReadsLanes | src/generators/SpirvShaderGenerator.cpp:1126-1155 | after the shuffle, the loaded vector's first lanes are the lanes the swizzle reads |
| SpirvSupport.NewVectorShuffles | src/generators/SpirvShaderGenerator.cpp:492-575 | NEWVECTOR2 is lowered only from (X, X), NEWVECTOR4 only from (XYZ, X), (X, XYZ) or four X sources; one shuffle, or three for four sources |
| SpirvSupport.NewVectorConcatenatesTwo | src/generators/SpirvShaderGenerator.cpp:492-545 | with two sources the built vector starts with the first source's lanes followed by the second's |
| SpirvSupport.NewVectorConcatenatesFour | src/generators/SpirvShaderGenerator.cpp:546-565 | with four X sources the three shuffles build the vector of the four first lanes, in source order |
| SpirvSupport.NextMember | src/generators/SpirvShaderGenerator.cpp:880-913 | within one uniform unit, the next member's index is one more and its offset grows by the previous member's size (16 for a vector, 64 for a matrix, 0 for an array) |
| SpirvSupport.FirstMember | src/generators/SpirvShaderGenerator.cpp:880-893 | a unit's first member has index 0 and offset 0 |
| SpirvSupport.MemberDecorations | src/generators/SpirvShaderGenerator.cpp:886-892 | every member gets its Offset; a matrix also ColMajor and MatrixStride 16; all name the block type and member index |
| SpirvSupport.BlockDecorations | src/generators/SpirvShaderGenerator.cpp:915-932 | BufferBlock for a block holding an array, Block otherwise; descriptor set 0 and binding = unit except for the push-constant block |
| SpirvSupport.Least | src/generators/SpirvShaderGenerator.cpp:871-877 | the least key of a non-empty key set, which a `std::map` visits first |
| SpirvSupport.AscendingSpec | src/generators/SpirvShaderGenerator.cpp:871-877 | iterating a `std::map` visits every key exactly once, in increasing order |
| SpirvSupport.ValuesByKeyMembers | src/generators/SpirvShaderGenerator.cpp:253-272 | iterating a map visits the value of every key once, in ascending key order |
| SpirvSupport.KeySetSnoc | src/generators/SpirvShaderGenerator.cpp:628-634 | scanning one more symbol adds its key exactly when it has the scanned location |
| SpirvSupport.DistinctKeysSnoc | src/generators/SpirvShaderGenerator.cpp:631 | keys stay distinct after one more symbol exactly when its key was not seen before |
| SpirvSupport.DistinctKeysPrefix | src/generators/SpirvShaderGenerator.cpp:631 | keys distinct over all symbols are distinct over every prefix |
| SpirvSupport.KeyScanMeaning | src/generators/SpirvShaderGenerator.cpp:626-635 | the allocation scan passes its uniqueness asserts exactly when the keys are distinct, and then has seen exactly the key set |
| SpirvSupport.KeyScanFails | src/generators/SpirvShaderGenerator.cpp:631 | once an assert has failed, scanning further symbols cannot recover |
| SpirvSupport.TexturesShareIndex | src/builder/ShaderBuilder.cpp:444-468 | in every program the builder makes, any two textures both have index 0xFFFFFFFF, so texture keys by index are not distinct |
| SpirvSupport.TwoTexturesShareIndex | src/generators/SpirvShaderGenerator.cpp:961-970 | with two textures, a table keyed by texture index cannot hold them both |
| SpirvPasses.SectionsOrdered | src/generators/SpirvShaderGenerator.cpp:94-617 | instructions grouped into sections of non-decreasing rank follow the logical layout of a module, every one at most the last section |
| SpirvPasses.StreamLayoutAppend | src/generators/SpirvShaderGenerator.cpp:94-617 | writing an instruction of the current or a later section keeps the stream in layout order |
| SpirvPasses.SectionsAppend | src/generators/SpirvShaderGenerator.cpp:94-617 | a run of one section written after no later section keeps the layout |
| SpirvPasses.StreamLayoutConcat | src/generators/SpirvShaderGenerator.cpp:94-617 | writing a whole run of one section, no earlier than the last, keeps the stream's words and instructions in layout |
| SpirvPasses.NumsConvert | include/nuanceur/generators/SpirvShaderGenerator.h:16-28 | ids, literals and enumerants passed to `WriteOp` convert to themselves, one word each |
| SpirvPasses.CollectNext | src/generators/SpirvShaderGenerator.cpp:628-634 | one more turn of a symbol loop appends its instructions, or its failed assert stops the loop |
| SpirvPasses.CollectOk | src/generators/SpirvShaderGenerator.cpp:628-634 | a symbol loop completes exactly when every turn does |
| SpirvPasses.CollectSingles | src/generators/SpirvShaderGenerator.cpp:253-272 | when every turn writes one instruction, the loop writes them in turn order |
| SpirvPasses.CollectInSection | src/generators/SpirvShaderGenerator.cpp:637-728 | a loop whose turns write one section writes only that section |
| SpirvPasses.CollectFails | src/generators/SpirvShaderGenerator.cpp:628-634 | once a turn fails the loop fails |
| SpirvPasses.InputDecoration | src/generators/SpirvShaderGenerator.cpp:637-663 | an input is decorated exactly when it has a semantic, a pointer and a semantic the stage supports (FragCoord only in a fragment shader, GlobalInvocationId only in a compute shader, a mappable location otherwise); one OpDecorate on its pointer |
| SpirvPasses.InputDecorationsOk | src/generators/SpirvShaderGenerator.cpp:637-663 | the whole pass completes exactly when every input meets those conditions |
| SpirvPasses.InputVariable | src/generators/SpirvShaderGenerator.cpp:665-684 | an input variable is an int3 pointer for the invocation id, which must be an Int4 symbol, and a float4 pointer otherwise, in the Input storage class |
| SpirvPasses.OutputsAllocatableSnoc | src/generators/SpirvShaderGenerator.cpp:686-699 | an output other than the position must be Float4 and have a new index; the pointer keys grow by exactly its index |
| SpirvPasses.OutputScanMeaning | src/generators/SpirvShaderGenerator.cpp:686-699 | the output allocation passes its asserts exactly when the outputs are allocatable, and then holds exactly the indices of the non-position outputs |
| SpirvPasses.OutputScanFails | src/generators/SpirvShaderGenerator.cpp:694-695 | once an output assert fails, allocation fails |
| SpirvPasses.FreshIdsAdd | src/generators/SpirvShaderGenerator.cpp:632-633 | giving a new key the next id keeps every allocated id fresh and bounded |
| SpirvPasses.OutputDecoration | src/generators/SpirvShaderGenerator.cpp:701-714 | each non-position output with a pointer gets one Location decoration of its semantic's location; the position is skipped |
| SpirvPasses.OutputVariable | src/generators/SpirvShaderGenerator.cpp:716-728 | each non-position output with a pointer is declared as a float4 Output variable |
| SpirvPasses.TextureDecoration | src/generators/SpirvShaderGenerator.cpp:972-982 | a texture's pointer gets descriptor set 0 and binding = its unit (the corrected key) |
| SpirvPasses.TextureDecorationAsWritten | src/generators/SpirvShaderGenerator.cpp:972-982 | as written: a texture is decorated only when a pointer is registered under its symbol index, and a non-texture writes nothing |
| SpirvPasses.TextureBindingAsWritten | src/generators/SpirvShaderGenerator.cpp:972-982 | in every well-formed program the as-written binding is 0xFFFFFFFF, the index the builder gives textures, and differs from the unit binding whenever the unit is not 0xFFFFFFFF |
| SpirvPasses.TextureVariable | src/generators/SpirvShaderGenerator.cpp:984-1006 | a Texture2D is a sampled-image pointer variable and an Image2DUint a storage-image pointer variable, both UniformConstant, each needing its pointer type |
| SpirvPasses.BlockDeclarationsAgree | src/generators/SpirvShaderGenerator.cpp:232-244 | the block struct holds exactly its components, its variable uses the block's pointer type and storage class, and that class is PushConstant exactly for the push-constant unit |
| SpirvPasses.ConstantDeclarations | src/generators/SpirvShaderGenerator.cpp:253-272 | every registered constant is declared once, with its own id and value |
| SpirvPasses.LanesRegisteredGrow | src/generators/SpirvShaderGenerator.cpp:1008-1024 | constants registered stay registered as the constant maps grow |
| SpirvPasses.TemporaryStepAt | src/generators/SpirvShaderGenerator.cpp:801-844 | turn i declares symbol i's composite constant when it is a temporary, nothing otherwise |
| SpirvPasses.TemporaryConstantLanes | src/generators/SpirvShaderGenerator.cpp:808-838 | once its lanes are registered, a temporary's OpConstantComposite names its own id and the ids of its four lane constants, never the empty id a missing key would give |
| SpirvPasses.TemporaryIdsConsecutive | src/generators/SpirvShaderGenerator.cpp:803-806 | each temporary draws the next id, later ones strictly later |
| SpirvPasses.TemporaryBindingsBound | src/generators/SpirvShaderGenerator.cpp:843 | every temporary ends up bound, to its own constant's id unless a later temporary reuses its index |
| SpirvPasses.InputPassesInSection | src/generators/SpirvShaderGenerator.cpp:178-224 | the input decoration pass writes only annotations and the input declaration pass only global declarations |
| SpirvPasses.OutputPassesInSection | src/generators/SpirvShaderGenerator.cpp:178-224 | likewise for outputs |
| SpirvPasses.TexturePassesInSection | src/generators/SpirvShaderGenerator.cpp:173-249 | likewise for textures |
| SpirvPasses.BlockPassesInSection | src/generators/SpirvShaderGenerator.cpp:171-244 | block decorations are annotations; block types and variables are declarations |
| SpirvPasses.OverUnitsCollect | src/generators/SpirvShaderGenerator.cpp:915-953 | a loop over the uniform blocks never fails |
| SpirvBlocks.AppendComponent | src/generators/SpirvShaderGenerator.cpp:852-868 | a uniform adds exactly one component to its block, exactly when its type can be a member; a runtime array makes the block a buffer block; nothing else changes |
| SpirvBlocks.BlockLayoutsOk | src/generators/SpirvShaderGenerator.cpp:849-869 | the first loop completes exactly when every uniform has a member type |
| SpirvBlocks.AddComponentToUnit | src/generators/SpirvShaderGenerator.cpp:852-868 | seen from one unit, a symbol of that unit adds one component and creates the block if needed; symbols of other units leave it alone |
| SpirvBlocks.BlockLayoutOfUnit | src/generators/SpirvShaderGenerator.cpp:849-869 | there is a block for exactly the units with a member, with one component per member, counters not yet started |
| SpirvBlocks.BlockLayoutBuffer | src/generators/SpirvShaderGenerator.cpp:861-863 | a block is a buffer block exactly when it holds a runtime array |
| SpirvBlocks.AssignBlockIdsStep | src/generators/SpirvShaderGenerator.cpp:871-877 | one more block in map order gets the next three ids: type, pointer type, variable |
| SpirvBlocks.BlockIdsAssigned | src/generators/SpirvShaderGenerator.cpp:871-877 | the k-th unit in ascending order gets ids base + 3k + 1 to base + 3k + 3 and keeps its members |
| SpirvBlocks.AssignedBlockIdsFrom | src/generators/SpirvShaderGenerator.cpp:871-877 | every block the layout holds gets, in ascending unit order, the k-th triple of ids after the base (`BlockIdsFrom`) |
| SpirvBlocks.BlockIdsUntouched | src/generators/SpirvShaderGenerator.cpp:871-877 | a unit the loop has not reached is unchanged |
| SpirvBlocks.BlockIdsDistinct | src/generators/SpirvShaderGenerator.cpp:871-877 | when the counter does not wrap, every block's three ids are increasing and all below the next block's |
| SpirvBlocks.AllocatedBlocksUnstarted | src/generators/SpirvShaderGenerator.cpp:847-886 | the blocks reach the member loop with member counter and offset 0 and no member recorded |
| SpirvBlocks.AddMemberToUnit | src/generators/SpirvShaderGenerator.cpp:884-912 | seen from one unit, a uniform of that unit moves the member counter on by one and the offset by its size, both mod 2^32; nothing else changes but the recorded indices |
| SpirvBlocks.MemberLayoutsCount | src/generators/SpirvShaderGenerator.cpp:880-913 | from zero, each block's counter and offset end at its number of members and their total size, mod 2^32 |
| SpirvBlocks.MemberLayoutsKeep | src/generators/SpirvShaderGenerator.cpp:880-913 | the member loop changes nothing in a block but its counters and recorded indices |
| SpirvBlocks.MemberIndexRecorded | src/generators/SpirvShaderGenerator.cpp:886-893 | each uniform's member index, its position in declaration order within its unit, is recorded under its symbol index unless a later uniform of the unit reuses that index |
| SpirvBlocks.MemberLayoutsOk | src/generators/SpirvShaderGenerator.cpp:896-912 | the member loop completes exactly when every uniform has a member type |
| SpirvLowering.OutputPointer | src/generators/SpirvShaderGenerator.cpp:730-758 | the position is reached through one fresh access chain into the per-vertex block, only in a vertex shader and with the int constant 0 registered; a texture coordinate or colour through its own output variable, writing nothing |
| SpirvLowering.LoadLocation | src/generators/SpirvShaderGenerator.cpp:1026-1124 | only inputs, outputs, uniforms, textures and temporaries can be read; a temporary is its current binding with nothing written, the others load into the next fresh id |
| SpirvLowering.LoadTemporary | src/generators/SpirvShaderGenerator.cpp:1115-1125 | a temporary read without a shuffle succeeds exactly when it is bound to a non-empty id, and is that id, with nothing written and no id drawn |
| SpirvLowering.LoadShuffled | src/generators/SpirvShaderGenerator.cpp:1126-1157 | a Float4 read through a non-identity swizzle succeeds exactly for Y, Z, W and WW, taking one more id and one OpVectorShuffle of the loaded vector with itself |
| SpirvLowering.Store | src/generators/SpirvShaderGenerator.cpp:1160-1180 | only whole-symbol writes to a temporary or a Float4 output succeed; a temporary is rebound to the value with nothing written, an output gets one OpStore through its pointer |
| SpirvLowering.ResultType | src/generators/SpirvShaderGenerator.cpp:1189-1202 | defined exactly for Uint4, Int4 and Float4 destinations |
| SpirvLowering.IfBeginBlock | src/generators/SpirvShaderGenerator.cpp:589-600 | IF_BEGIN needs no open IF and leaves a fresh, non-empty end label pending unless the id counter wraps |
| SpirvLowering.IfEndBlock | src/generators/SpirvShaderGenerator.cpp:601-608 | IF_END succeeds exactly when an IF is open: it branches to and starts the end label, then closes the IF, touching nothing else |
| SpirvLowering.Lower | src/generators/SpirvShaderGenerator.cpp:281-612 | every lowered statement moves the pending end label as its operation demands: IF_BEGIN opens one, IF_END closes one, all others keep it |
| SpirvLowering.LowerWithStep | src/generators/SpirvShaderGenerator.cpp:281-612 | one more statement extends the lowered prefix by exactly its own lowering, with the ids and bindings the prefix left |
| SpirvLowering.LowerWithFails | src/generators/SpirvShaderGenerator.cpp:281-612 | once a statement fails, every longer prefix fails with the same error |
| SpirvLowering.LowerAllStep | src/generators/SpirvShaderGenerator.cpp:281-612 | the same for the generator's own statement switch |
| SpirvLowering.EndLabelFollowsIfs | src/generators/SpirvShaderGenerator.cpp:589-608 | when the counter does not wrap, the end label is pending exactly while an IF is open, and no statement nests or unbalances IFs |
| SpirvLowering.IfsTrackedStep | src/generators/SpirvShaderGenerator.cpp:589-608 | each statement keeps the end label pending exactly while the IFs seen so far leave one open |
| SpirvModule.Ascii | src/generators/SpirvShaderGenerator.cpp:102-143 | the name strings become their byte values, one per character, with no embedded zero |
| SpirvModule.CapabilitiesInSections | src/generators/SpirvShaderGenerator.cpp:94-100 | capabilities, the interlock extension and the memory model sit in their own layout sections |
| SpirvModule.MainNameWords | src/generators/SpirvShaderGenerator.cpp:102-143 | "main" packs into two words, which read back as the name |
| SpirvModule.InterlockNameWords | src/generators/SpirvShaderGenerator.cpp:94-100 | "SPV_EXT_fragment_shader_interlock" packs into nine words, which read back as the name |
| SpirvModule.EntryOutputsMembers | src/generators/SpirvShaderGenerator.cpp:128-137 | the entry point's output list names every output pointer once, after the per-vertex variable in a vertex shader |
| SpirvModule.ExecutionModesInSection | src/generators/SpirvShaderGenerator.cpp:145-156 | the execution modes sit in their own layout section |
| SpirvModule.InterfaceParams | include/nuanceur/generators/SpirvShaderGenerator.h:59-70 | the entry point's parameters convert to the enumerant, the id, the packed name and the two id lists, in that order |
| SpirvModule.EntryPointOperands | src/generators/SpirvShaderGenerator.cpp:102-143 | the entry point instruction is the execution model, the main function, "main" in two words and the input and output lists |
| SpirvModule.InterlockExtensionOperands | src/generators/SpirvShaderGenerator.cpp:96-99 | the extension instruction's operands are the packed extension name, which reads back as the name |
| SpirvModule.TypesInSection | src/generators/SpirvShaderGenerator.cpp:183-221 | the basic and image types all belong to the types, constants and globals section |
| SpirvGenerator.ConstantsOkUseLanes | src/generators/SpirvShaderGenerator.cpp:808-838 | when the constant pass succeeds, each temporary's OpConstantComposite names the ids registered for its four lanes |
| SpirvGenerator.ResourceIdsStages | src/generators/SpirvShaderGenerator.cpp:63-84 | the block, member pointer and image type ids, taken in that order, are exactly those `ResourceIdsFrom` places, and no other type id changes |
| SpirvGenerator.AllocatedFromStages | src/generators/SpirvShaderGenerator.cpp:45-92 | the basic and resource ids, the texture pointers, then the input and output pointers and the last three ids, taken in that order, make up exactly the allocation `AllocatedFrom` describes |
| SpirvGenerator.AllocatedPointersApart | src/generators/SpirvShaderGenerator.cpp:45-92 | while the counter has not wrapped, texture pointers come before input pointers, input before output pointers, all above the type and block ids and below the per-vertex variable, main and its label, in that order |
| SpirvGenerator.SpirvShaderGenerator.constructor | src/generators/SpirvShaderGenerator.cpp:6-12 | a generator over the given program and shader type starts with nothing written, counter at 1 and no ids allocated |
| SpirvGenerator.SpirvShaderGenerator.AllocateId | src/generators/SpirvShaderGenerator.cpp:1233-1236 | returns the counter and moves it on mod 2^32; until it wraps, the ids handed out are 1, 2, 3, ... |
| SpirvGenerator.SpirvShaderGenerator.AddFreshId | src/generators/SpirvShaderGenerator.cpp:632-633 | records the next id under a new key; every recorded id stays fresh and bounded |
| SpirvGenerator.SpirvShaderGenerator.WriteOp | include/nuanceur/generators/SpirvShaderGenerator.h:97-106 | appends exactly the instruction with the converted operands, keeping the stream the encoding of the instructions |
| SpirvGenerator.SpirvShaderGenerator.Emit | include/nuanceur/generators/SpirvShaderGenerator.h:97-106 | the same for operands that are ids, literals and enumerants |
| SpirvGenerator.SpirvShaderGenerator.RegisterIntConstant | src/generators/SpirvShaderGenerator.cpp:1014-1018 | a value is registered afterwards; a new value takes the next id, a known one changes nothing |
| SpirvGenerator.SpirvShaderGenerator.RegisterUintConstant | src/generators/SpirvShaderGenerator.cpp:1020-1024 | the same for unsigned constants |
| SpirvGenerator.SpirvShaderGenerator.RegisterFloatConstant | src/generators/SpirvShaderGenerator.cpp:1008-1012 | the same for float constants, keyed by their bits |
| SpirvGenerator.SpirvShaderGenerator.GatherTemporary | src/generators/SpirvShaderGenerator.cpp:764-797 | succeeds exactly for a non-temporary or a Float4, Int4 or Uint4 temporary, and then all its lanes are registered; registered constants are kept |
| SpirvGenerator.SpirvShaderGenerator.GatherFloat4 | src/generators/SpirvShaderGenerator.cpp:767-775 | the four lanes of a Float4 temporary end up registered as float constants |
| SpirvGenerator.SpirvShaderGenerator.GatherInt4 | src/generators/SpirvShaderGenerator.cpp:776-784 | the four lanes of an Int4 temporary end up registered as int constants |
| SpirvGenerator.SpirvShaderGenerator.GatherUint4 | src/generators/SpirvShaderGenerator.cpp:785-793 | the four lanes of a Uint4 temporary end up registered as uint constants |
| SpirvGenerator.SpirvShaderGenerator.GatherConstantsFromTemps | src/generators/SpirvShaderGenerator.cpp:760-799 | succeeds exactly when every temporary is Float4, Int4 or Uint4, and then every lane of every temporary is registered |
| SpirvGenerator.SpirvShaderGenerator.AllocatePointerIds | src/generators/SpirvShaderGenerator.cpp:626-635 | succeeds exactly when the keys of the scanned location are distinct; then there is exactly one fresh id per key, and the counter has advanced by exactly the number of keys |
| SpirvGenerator.SpirvShaderGenerator.AllocatePointerIdAt | src/generators/SpirvShaderGenerator.cpp:626-635 | one symbol of that loop: it extends the key scan by one symbol, failing exactly when the scan does, and keeps the ids fresh with one id per key |
| SpirvGenerator.SpirvShaderGenerator.AllocateInputPointerIds | src/generators/SpirvShaderGenerator.cpp:626-635 | succeeds exactly when input indices are distinct; then one fresh pointer id per input index |
| SpirvGenerator.SpirvShaderGenerator.AllocateTextureIds | src/generators/SpirvShaderGenerator.cpp:961-970 | corrected: succeeds exactly when texture units are distinct; then one fresh pointer id per unit |
| SpirvGenerator.SpirvShaderGenerator.AllocateTextureIdsAsWritten | src/generators/SpirvShaderGenerator.cpp:961-970 | as written, keyed by index: any builder-made program with two textures fails the assert |
| SpirvGenerator.SpirvShaderGenerator.AllocateOutputPointerIds | src/generators/SpirvShaderGenerator.cpp:686-699 | succeeds exactly when the outputs are allocatable; then one fresh pointer id per non-position output index |
| SpirvGenerator.SpirvShaderGenerator.OutputPointerIds | src/generators/SpirvShaderGenerator.cpp:688-698 | its loop, with the same contract |
| SpirvGenerator.SpirvShaderGenerator.AllocateUniformStructsIds | src/generators/SpirvShaderGenerator.cpp:847-878 | succeeds exactly when every uniform has a member type; then a block per unit with its members' types, three consecutive ids per block in unit order |
| SpirvGenerator.SpirvShaderGenerator.CollectBlockLayouts | src/generators/SpirvShaderGenerator.cpp:849-869 | its first loop produces exactly the block layouts |
| SpirvGenerator.SpirvShaderGenerator.AssignUniformBlockIds | src/generators/SpirvShaderGenerator.cpp:871-877 | its second loop gives each block its three ids in unit order, taking three ids per block |
| SpirvGenerator.SpirvShaderGenerator.AssignBlock | src/generators/SpirvShaderGenerator.cpp:873-876 | one turn gives the next block its three ids |
| SpirvGenerator.SpirvShaderGenerator.WritePass | src/generators/SpirvShaderGenerator.cpp:637-728 | a symbol pass succeeds exactly when every turn does, and then writes all their instructions in order |
| SpirvGenerator.SpirvShaderGenerator.DecorateInputPointerIds | src/generators/SpirvShaderGenerator.cpp:637-663 | writes exactly the input decorations, as annotations, and succeeds exactly when they all exist |
| SpirvGenerator.SpirvShaderGenerator.DecorateOutputPointerIds | src/generators/SpirvShaderGenerator.cpp:701-714 | writes exactly the output locations, as annotations |
| SpirvGenerator.SpirvShaderGenerator.DecorateTextureIds | src/generators/SpirvShaderGenerator.cpp:972-982 | writes exactly the textures' descriptor sets and bindings, as annotations |
| SpirvGenerator.SpirvShaderGenerator.DecorateUniformStructIds | src/generators/SpirvShaderGenerator.cpp:880-933 | writes the member decorations then the block decorations; the blocks end with the counted member layout and every member index registered as an int constant |
| SpirvGenerator.SpirvShaderGenerator.DecorateUniformMembers | src/generators/SpirvShaderGenerator.cpp:882-913 | its first loop writes exactly the member decorations, records the layout and registers the member indices |
| SpirvGenerator.SpirvShaderGenerator.DecorateUniformSymbol | src/generators/SpirvShaderGenerator.cpp:884-912 | one symbol of that loop: a uniform of a member type adds its decorations and moves its block on, a uniform of another type fails, any other symbol adds nothing |
| SpirvGenerator.SpirvShaderGenerator.DecorateMember | src/generators/SpirvShaderGenerator.cpp:885-912 | one uniform gets the decorations at its block's current index and offset, and the block moves on |
| SpirvGenerator.SpirvShaderGenerator.DeclareInputPointerIds | src/generators/SpirvShaderGenerator.cpp:665-684 | writes exactly the input variables, as declarations |
| SpirvGenerator.SpirvShaderGenerator.DeclareOutputPointerIds | src/generators/SpirvShaderGenerator.cpp:716-728 | writes exactly the output variables, as declarations |
| SpirvGenerator.SpirvShaderGenerator.DeclareTextureIds | src/generators/SpirvShaderGenerator.cpp:984-1006 | writes exactly the texture variables, as declarations |
| SpirvGenerator.SpirvShaderGenerator.DeclareUniformStructIds | src/generators/SpirvShaderGenerator.cpp:935-959 | writes nothing without blocks, otherwise each block's types in unit order then the member pointer types |
| SpirvGenerator.SpirvShaderGenerator.DeclareBlockTypes | src/generators/SpirvShaderGenerator.cpp:939-953 | writes each block's struct and pointer type in unit order |
| SpirvGenerator.SpirvShaderGenerator.DeclareBlockVariables | src/generators/SpirvShaderGenerator.cpp:232-244 | writes each block's variable in unit order |
| SpirvGenerator.SpirvShaderGenerator.DeclareConstants | src/generators/SpirvShaderGenerator.cpp:253-272 | writes the registered constants of one type in key order |
| SpirvGenerator.SpirvShaderGenerator.DeclareTemporaryValueIds | src/generators/SpirvShaderGenerator.cpp:801-845 | succeeds exactly when every temporary's constant can be built; then writes them, takes one id per temporary and binds each temporary's index to its id |
| SpirvGenerator.SpirvShaderGenerator.TemporaryConstants | src/generators/SpirvShaderGenerator.cpp:803-844 | its loop, building the same constants, ids and bindings |
| SpirvGenerator.SpirvShaderGenerator.TemporaryConstantAt | src/generators/SpirvShaderGenerator.cpp:804-842 | one symbol of that loop: a temporary takes the next id, and its composite constant and binding use that id; any other symbol adds nothing |
| SpirvGenerator.SpirvShaderGenerator.WriteLowered | src/generators/SpirvShaderGenerator.cpp:281-612 | writes one statement's instructions and takes over the bindings, end label and ids it left |
| SpirvGenerator.SpirvShaderGenerator.WriteMain | src/generators/SpirvShaderGenerator.cpp:281-612 | the statement loop succeeds exactly when the statements lower; then it writes exactly their instructions and ends with the bindings, end label and id count they leave |
| SpirvGenerator.SpirvShaderGenerator.LowerStatements | src/generators/SpirvShaderGenerator.cpp:281-612 | the lowering of all the statements, in order, from the current bindings and counter |
| SpirvGenerator.SpirvShaderGenerator.WriteHeader | src/generators/SpirvShaderGenerator.cpp:33-37 | the five header words: magic, version 1.3, generator 0, bound 0 until patched, schema 0 |
| SpirvGenerator.SpirvShaderGenerator.AllocateTypeIds | src/generators/SpirvShaderGenerator.cpp:45-61 | the seventeen basic types take the next seventeen ids in the order listed: the four returned and the thirteen stored ones, each at its exact position; no other type id changes |
| SpirvGenerator.SpirvShaderGenerator.AllocateFloatTypeIds | src/generators/SpirvShaderGenerator.cpp:45-49 | void, the main function type, bool, float and float4 take the next five ids, in that order |
| SpirvGenerator.SpirvShaderGenerator.AllocateUintTypeIds | src/generators/SpirvShaderGenerator.cpp:50-53 | uint, uint4, the matrix and the uint array take the next four ids |
| SpirvGenerator.SpirvShaderGenerator.AllocateIntTypeIds | src/generators/SpirvShaderGenerator.cpp:54-56 | int, int3 and int4 take the next three ids |
| SpirvGenerator.SpirvShaderGenerator.AllocateInterfaceTypeIds | src/generators/SpirvShaderGenerator.cpp:57-61 | the per-vertex block, the input and output pointer types and the block pointer take the next five ids |
| SpirvGenerator.SpirvShaderGenerator.AllocateMemberPointerTypeIds | src/generators/SpirvShaderGenerator.cpp:63-70 | the three member pointer types take the next three ids |
| SpirvGenerator.SpirvShaderGenerator.AllocateImageTypeIds | src/generators/SpirvShaderGenerator.cpp:72-84 | the five image types take the next five ids |
| SpirvGenerator.SpirvShaderGenerator.AllocateBlockIds | src/generators/SpirvShaderGenerator.cpp:63-70 | succeeds exactly when the uniforms are members; then three ids per block in unit order, and the member pointer types take the next three ids exactly when there is a block; no other type id changes |
| SpirvGenerator.SpirvShaderGenerator.AllocateTextureResourceIds | src/generators/SpirvShaderGenerator.cpp:72-84 | the five image types take the next five ids, then one fresh texture pointer per texture unit; it succeeds exactly when the units are distinct |
| SpirvGenerator.SpirvShaderGenerator.AllocateAll | src/generators/SpirvShaderGenerator.cpp:45-92 | succeeds exactly when every allocation pass does; then every block starts at member 0, offset 0, and every id is at its exact position in allocation order (`AllocatedFrom`): the basic types, three per block, the member pointer and image types, then one fresh id per texture unit, input and pointer output, each table in its own range, then the per-vertex variable, main and its label |
| SpirvGenerator.SpirvShaderGenerator.AllocateResourceIds | src/generators/SpirvShaderGenerator.cpp:63-84 | succeeds exactly when the uniforms are members and (with textures) the texture units are distinct; then the blocks start with counters at zero, the block, member pointer and image type ids sit at their exact positions, the texture pointers take fresh ids right after them (none without textures), and no other type id changes |
| SpirvGenerator.SpirvShaderGenerator.AllocateInterfaceIds | src/generators/SpirvShaderGenerator.cpp:86-92 | succeeds exactly when the input indices are distinct and the outputs are allocatable; then the input pointers take fresh ids, the output pointers the next fresh ids, and the per-vertex variable, the main function and its label the last three ids; no other type id changes |
| SpirvGenerator.SpirvShaderGenerator.WriteCapabilities | src/generators/SpirvShaderGenerator.cpp:94-100 | writes exactly the capabilities, the extension when interlocked, and the memory model |
| SpirvGenerator.SpirvShaderGenerator.WriteInterlockExtension | src/generators/SpirvShaderGenerator.cpp:98 | writes exactly the interlock extension instruction |
| SpirvGenerator.SpirvShaderGenerator.WriteEntryPoint | src/generators/SpirvShaderGenerator.cpp:102-156 | writes exactly the entry point with the given interface and the stage's execution modes |
| SpirvGenerator.SpirvShaderGenerator.WriteEntryPointInstruction | src/generators/SpirvShaderGenerator.cpp:139-143 | writes exactly the entry point instruction |
| SpirvGenerator.SpirvShaderGenerator.WritePerVertexAnnotations | src/generators/SpirvShaderGenerator.cpp:162-169 | writes the per-vertex annotations; a vertex shader registers the int constant 0 |
| SpirvGenerator.SpirvShaderGenerator.WriteInterfaceDecorations | src/generators/SpirvShaderGenerator.cpp:173-181 | succeeds exactly when the texture (if any), input and output decorations all exist; then appends exactly those decorations and the array stride, in that order |
| SpirvGenerator.SpirvShaderGenerator.WriteTypeDeclarations | src/generators/SpirvShaderGenerator.cpp:183-221 | writes the basic types, the block types and, with textures, the image types |
| SpirvGenerator.SpirvShaderGenerator.WriteVariables | src/generators/SpirvShaderGenerator.cpp:223-249 | succeeds exactly when the input, output and texture (if any) variables do; then writes them with the per-vertex and block variables, in source order |
| SpirvGenerator.SpirvShaderGenerator.WriteScalarConstants | src/generators/SpirvShaderGenerator.cpp:253-272 | writes the float, int and uint constants, each kind in key order |
| SpirvGenerator.SpirvShaderGenerator.WriteMainFunction | src/generators/SpirvShaderGenerator.cpp:276-617 | succeeds exactly when the statements lower; then writes the function header and label, their instructions, the return and the end |
| SpirvGenerator.SpirvShaderGenerator.WriteMainBody | src/generators/SpirvShaderGenerator.cpp:281-617 | the same without the header |
| SpirvGenerator.SpirvShaderGenerator.PatchBound | src/generators/SpirvShaderGenerator.cpp:621 | overwrites only the bound header word, with the next id |
| SpirvGenerator.SpirvShaderGenerator.WritePreamble | src/generators/SpirvShaderGenerator.cpp:94-156 | writes the capabilities, then the entry point listing input pointers in key order and, for a vertex shader, the per-vertex variable before the outputs, then the execution modes |
| SpirvGenerator.SpirvShaderGenerator.WriteAnnotations | src/generators/SpirvShaderGenerator.cpp:162-181 | succeeds exactly when the member and interface decorations do; then appends exactly the per-vertex, block, member, texture, input and output annotations, in source order, and leaves the blocks laid out |
| SpirvGenerator.SpirvShaderGenerator.WriteBlockAnnotations | src/generators/SpirvShaderGenerator.cpp:162-169 | succeeds exactly when every uniform has a member type; then appends the per-vertex and block annotations and leaves the blocks laid out |
| SpirvGenerator.SpirvShaderGenerator.WriteDeclarations | src/generators/SpirvShaderGenerator.cpp:183-274 | succeeds exactly when the variables and the constants do; then appends the types, variables, scalar and composite constants, and leaves the temporaries bound and the id count as the main function needs them |
| SpirvGenerator.SpirvShaderGenerator.WriteTypesAndVariables | src/generators/SpirvShaderGenerator.cpp:183-249 | succeeds exactly when the variables do; then appends the type declarations and then the variables |
| SpirvGenerator.SpirvShaderGenerator.WriteConstants | src/generators/SpirvShaderGenerator.cpp:251-274 | succeeds exactly when every temporary is a four-lane vector whose constant can be built; then appends the scalar constants of the registered tables and the temporaries' composite constants |
| SpirvGenerator.SpirvShaderGenerator.GatherConstants | src/generators/SpirvShaderGenerator.cpp:251 | the gathering succeeds exactly when every temporary is Float4, Int4 or Uint4; then the tables it leaves register every lane of every temporary (`LanesRegistered`, also part of `ConstantsOk`) |
| SpirvGenerator.SpirvShaderGenerator.WriteRegisteredConstants | src/generators/SpirvShaderGenerator.cpp:253-274 | appends the registered scalar constants then the composite constants, whose ids follow the ids issued so far, and binds each temporary |
| SpirvGenerator.SpirvShaderGenerator.Generate | src/generators/SpirvShaderGenerator.cpp:28-622 | succeeds exactly when the allocation, the annotations, the variables, the constants and every statement's lowering do; then the ids are allocated as `AllocatedFrom(a, 0)` states, every lane of every temporary is registered, and the stream is the header with bound = ids issued + 1 followed by the encoding of exactly the preamble, annotations and declarations (in layout order), the main function header, the statements' lowering and the function end |
| SpirvGenerator.SpirvShaderGenerator.GenerateWith | src/generators/SpirvShaderGenerator.cpp:28-622 | the same for any statement lowering, with the same exact allocation |
| SpirvGenerator.SpirvShaderGenerator.WriteMainAndPatch | src/generators/SpirvShaderGenerator.cpp:276-621 | succeeds exactly when the statements lower; then appends the main function around exactly their lowering and patches the bound to the ids issued + 1 |
| SpirvGenerator.SpirvShaderGenerator.WriteDeclared | src/generators/SpirvShaderGenerator.cpp:28-274 | succeeds exactly when the allocation and the annotation, variable and constant passes do; then the ids are allocated as `AllocatedFrom(a, 0)` states, every lane of every temporary is registered, and the instructions are exactly the preamble, annotations and declarations, in layout order |
| SpirvGenerator.SpirvShaderGenerator.WriteHeaderAndAllocate | src/generators/SpirvShaderGenerator.cpp:28-92 | writes the header and succeeds exactly when the allocation does; then every block starts at member 0, every id sits at its exact position counted from 1 (`AllocatedFrom(a, 0)`), and nothing else is written |
| SpirvGenerator.SpirvShaderGenerator.WriteSections | src/generators/SpirvShaderGenerator.cpp:94-274 | succeeds exactly when the annotations, variables and constants do; then the instructions are exactly the preamble, annotations and declarations |
| SpirvGenerator.SpirvShaderGenerator.WriteAnnotationsAndDeclarations | src/generators/SpirvShaderGenerator.cpp:162-274 | succeeds exactly when the annotations, variables and constants do; then appends exactly the annotations and then the declarations |
| Text.NatText | src/generators/GlslShaderGenerator.cpp:243 | a number in base ten: digits only, at least one, no leading zero |
| Text.ParseNatText | src/generators/GlslShaderGenerator.cpp:243 | reading the digits back gives the number |
| Text.NatTextInjective | src/generators/GlslShaderGenerator.cpp:243 | different numbers print differently |
| Text.IntText | src/generators/GlslShaderGenerator.cpp:303-305 | `%d` of an int: the digits, after a minus sign when negative |
| Text.IntTextRoundTrip | src/generators/GlslShaderGenerator.cpp:303-305 | reading the text back gives the int |
| Text.UnsignedAsD | src/generators/GlslShaderGenerator.cpp:233 | `%d` of an unsigned value reads it as a 32-bit int: values below 2^31 print as themselves, 0xFFFFFFFF as "-1" |
| Text.UnsignedAsDInjective | src/generators/GlslShaderGenerator.cpp:233 | different 32-bit values still print differently |
| Text.SwizzleSpellings | src/generators/GlslShaderGenerator.cpp:328-360 | the swizzle suffixes spell the lanes read, x y z w |
| Text.GatherOk | src/generators/GlslShaderGenerator.cpp:179-236 | a section's text exists exactly when every item's line does |
| Text.GatherAppend | src/generators/GlslShaderGenerator.cpp:179-236 | the text of two runs is the first's followed by the second's |
| Text.GatherAt | src/generators/GlslShaderGenerator.cpp:179-236 | each item's line sits between the lines of the items before and after it |
| Text.Concatenate | src/generators/GlslShaderGenerator.cpp:179-236 | the loop appending each item's line builds exactly the section's text |
| Text.GatherPrefixErr | src/generators/GlslShaderGenerator.cpp:179-236 | once an item fails, the section fails with that item's error |
| Text.PrintAll | src/generators/GlslShaderGenerator.cpp:328-360 | prints every reference in order, and succeeds exactly when each does |
| Text.CallLine | src/generators/GlslShaderGenerator.cpp:79-103 | a call line exists exactly when the destination and the used sources print, and is an assignment of `name(args)` to the destination |
| Text.InfixLine | src/generators/GlslShaderGenerator.cpp:55-78 | an operator line is an assignment to the printed destination |
| Text.UnaryLine | src/generators/GlslShaderGenerator.cpp:141-160 | a wrapped-source line is an assignment to the printed destination |
| Glsl.SwizzleSuffix | src/generators/GlslShaderGenerator.cpp:334-362 | defined exactly for the swizzles the switch lists, and then a dot followed by the letters of the lanes read |
| Glsl.MakeSemanticName | src/generators/GlslShaderGenerator.cpp:298-310 | defined exactly for position and texture-coordinate semantics |
| Glsl.SemanticNamesDistinct | src/generators/GlslShaderGenerator.cpp:298-310 | different semantics get different names |
| Glsl.MakeTypeName | src/generators/GlslShaderGenerator.cpp:312-326 | defined exactly for Float4, Matrix and Texture2D |
| Glsl.MakeLocalSymbolName | src/generators/GlslShaderGenerator.cpp:261-296 | an input is its stage prefix and semantic name; a system position or colour output is gl_Position or gl_FragColor; another output its prefix and semantic name; a uniform its recorded name; nothing else has one |
| Glsl.InputNamesDistinct | src/generators/GlslShaderGenerator.cpp:265-270 | two inputs share a name only if their semantics are equal |
| Glsl.MakeSymbolName | src/generators/GlslShaderGenerator.cpp:238-259 | a temporary is "t" and its index; inputs, outputs and uniforms their local name; other locations have none |
| Glsl.TemporaryNamesDistinct | src/generators/GlslShaderGenerator.cpp:243 | temporaries with different indices get different names |
| Glsl.PrintSymbolRef | src/generators/GlslShaderGenerator.cpp:328-364 | a matrix prints as its bare name, anything else as its name, a dot and the letters of the lanes read; it fails exactly when the name or the swizzle does |
| Glsl.SamplerNumber | src/generators/GlslShaderGenerator.cpp:226-236 | corrected: a texture's sampler is numbered by its unit |
| Glsl.SamplerNamesDistinct | src/generators/GlslShaderGenerator.cpp:226-236 | textures of different units get different sampler names |
| Glsl.SamplersShareNameAsWritten | src/generators/GlslShaderGenerator.cpp:233 | as written, every texture of a builder-made program declares the same sampler "c_sampler-1" |
| Glsl.InputDeclaration | src/generators/GlslShaderGenerator.cpp:179-194 | nothing for a non-input or a system position or colour; otherwise "attribute" (vertex) or "varying", the type and the local name |
| Glsl.OutputDeclaration | src/generators/GlslShaderGenerator.cpp:196-211 | nothing for a non-output or a system position or colour; otherwise "varying" (vertex) or "(invalid)", the type and the local name |
| Glsl.UniformDeclaration | src/generators/GlslShaderGenerator.cpp:213-224 | a uniform is declared as mat4 for a matrix and vec4 otherwise, under its recorded name |
| Glsl.SamplerDeclaration | src/generators/GlslShaderGenerator.cpp:226-236 | one sampler declaration per texture and nothing for any other symbol |
| Glsl.TemporaryDeclaration | src/generators/GlslShaderGenerator.cpp:36-44 | a temporary is declared as a vec4 of its recorded value and must be Float4; other symbols give nothing |
| Glsl.SampleLine | src/generators/GlslShaderGenerator.cpp:161-167 | sampling needs a texture in its first source and assigns to the printed destination |
| Glsl.StatementLine | src/generators/GlslShaderGenerator.cpp:53-171 | an operation without a case fails; otherwise one assignment line to the printed destination, or nothing for a NEWVECTOR4 with fewer than two sources |
| Glsl.Generate | src/generators/GlslShaderGenerator.cpp:19-177 | the generator's loops build exactly the shader text |
| Glsl.FragmentStartsWithPrecision | src/generators/GlslShaderGenerator.cpp:23-26 | a fragment shader starts with the precision statement |
| Glsl.EndsWithClosingBrace | src/generators/GlslShaderGenerator.cpp:174 | the text ends with the closing brace of main |
| Glsl.TextOk | src/generators/GlslShaderGenerator.cpp:19-177 | the text fails exactly when a declaration, a temporary or a statement does |
| Glsl.StatementsInOrder | src/generators/GlslShaderGenerator.cpp:46-172 | each statement's line sits after the prologue and the earlier statements' lines, and before the later ones and the closing brace |
| Hlsl.SwizzleSuffix | src/generators/HlslShaderGenerator.cpp:350-383 | defined exactly for the swizzles the switch lists (Z and ZZ among them), and then a dot followed by the letters of the lanes read |
| Hlsl.MakeSemanticName | src/generators/HlslShaderGenerator.cpp:309-325 | defined exactly for position, texture coordinate, system position and system colour |
| Hlsl.SemanticNamesEqual | src/generators/HlslShaderGenerator.cpp:309-325 | two semantics share a name exactly when their kinds match and, for texture coordinates, their indices do |
| Hlsl.MakeTypeName | src/generators/HlslShaderGenerator.cpp:327-341 | defined exactly for Float4, Matrix and Texture2D |
| Hlsl.MakeLocalSymbolName | src/generators/HlslShaderGenerator.cpp:293-307 | an input is "i" and its index, an output "o" and its index, a uniform its recorded name; nothing else has one |
| Hlsl.MakeSymbolName | src/generators/HlslShaderGenerator.cpp:270-291 | a temporary is "t" and its index, an input or output its member of the input or output structure, a uniform its name |
| Hlsl.SymbolNamesDistinct | src/generators/HlslShaderGenerator.cpp:270-307 | temporaries, inputs and outputs share a name only when they are the same kind with the same index |
| Hlsl.PrintSymbolRef | src/generators/HlslShaderGenerator.cpp:343-384 | a matrix prints as its bare name, anything else as its name, a dot and the letters of the lanes read; it fails exactly when the name or the swizzle does |
| Hlsl.InputMember | src/generators/HlslShaderGenerator.cpp:203-219 | every input, system semantics included, is a member with its type, "i" and its index, and its semantic name, and fails exactly when one of those does |
| Hlsl.OutputMember | src/generators/HlslShaderGenerator.cpp:221-237 | every output is a member with its type, "o" and its index, and its semantic name |
| Hlsl.ConstantMember | src/generators/HlslShaderGenerator.cpp:239-253 | a uniform is a matrix or a float4 under its recorded name |
| Hlsl.ResourceNamesDistinct | src/generators/HlslShaderGenerator.cpp:255-268 | different units get different texture and sampler names |
| Hlsl.SamplerDeclaration | src/generators/HlslShaderGenerator.cpp:255-268 | a texture declares a texture and a sampler state, both numbered and registered by its unit |
| Hlsl.TemporaryDeclaration | src/generators/HlslShaderGenerator.cpp:31-39 | a temporary is declared as a float4 of its recorded value and must be Float4; other symbols give nothing |
| Hlsl.SampleLine | src/generators/HlslShaderGenerator.cpp:175-191 | with combined samplers, tex2D on the unit's sampler, requiring a Texture2D; otherwise the unit's texture's Sample with its sampler |
| Hlsl.MultiplyLine | src/generators/HlslShaderGenerator.cpp:62-79 | a product involving a matrix is mul(a, b), any other a * b |
| Hlsl.NewVector4Line | src/generators/HlslShaderGenerator.cpp:117-142 | float4 over exactly the sources in use when there are two to four; nothing otherwise |
| Hlsl.StatementLine | src/generators/HlslShaderGenerator.cpp:48-195 | an operation without a case fails; otherwise one assignment line to the printed destination, or nothing for a NEWVECTOR4 with fewer than two sources |
| Hlsl.GenerateBlock | src/generators/HlslShaderGenerator.cpp:203-253 | a structure or the constant buffer is its header, its members' lines and the closing brace |
| Hlsl.Generate | src/generators/HlslShaderGenerator.cpp:18-201 | the generator's loops build exactly the shader text |
| Hlsl.StartsWithInputStruct | src/generators/HlslShaderGenerator.cpp:22 | the text starts with the INPUT structure |
| Hlsl.SectionsInOrder | src/generators/HlslShaderGenerator.cpp:22-27 | the structures, the constant buffer, the samplers and the entry point's header come first, in that order |
| Hlsl.EndsWithReturn | src/generators/HlslShaderGenerator.cpp:198-199 | the text ends with the return of the output structure and the closing brace |
| Hlsl.StatementsInOrder | src/generators/HlslShaderGenerator.cpp:41-196 | each statement's line sits after the prologue and the earlier statements' lines, and before the later ones and the return |
| LegacyBuilder.LegacyShaderBuilder.constructor | src/ShaderBuilder.cpp:5-8 | a new builder has no symbols, no statements, empty tables and every counter at 0 |
| LegacyBuilder.LegacyShaderBuilder.GetTemporaryValue | src/ShaderBuilder.cpp:28-38 | defined exactly for temporaries: the recorded payload, or (0, 0, 0, 0) when none was recorded |
| LegacyBuilder.LegacyShaderBuilder.InsertStatement | src/ShaderBuilder.cpp:45-48 | appends exactly one statement, keeping the builder's invariant |
| LegacyBuilder.LegacyShaderBuilder.CreateInput | src/ShaderBuilder.cpp:50-62 | a Float4 input numbered by the input counter, which moves on mod 2^32; its semantic is recorded and, before the counter wraps, found again |
| LegacyBuilder.LegacyShaderBuilder.CreateOutput | src/ShaderBuilder.cpp:64-76 | the same for outputs and the output counter |
| LegacyBuilder.LegacyShaderBuilder.CreateTemporary | src/ShaderBuilder.cpp:78-88 | a Float4 temporary numbered by the shared counter, which moves on |
| LegacyBuilder.LegacyShaderBuilder.CreateConstant | src/ShaderBuilder.cpp:90-105 | a Float4 temporary numbered by the shared counter, with its payload recorded and found again before the counter wraps; equal payloads are not shared |
| LegacyBuilder.LegacyShaderBuilder.CreateUniform | src/ShaderBuilder.cpp:107-133 | a Float4 or Matrix uniform numbered by the shared counter, its name recorded and found again before the counter wraps |
| LegacyBuilder.LegacyShaderBuilder.CreateTexture2D | src/ShaderBuilder.cpp:135-145 | a texture whose index is its unit; no counter moves |
| LegacyBuilder.LegacyAppended | src/ShaderBuilder.cpp:50-145 | every Create step keeps the builder's invariant (dense, distinct indices per counter, every table entry present), with the counter it drew from moved on |
| LegacyBuilder.InputAdded | src/ShaderBuilder.cpp:50-62 | adding an input keeps the invariant and, before the counter wraps, records its semantic where lookups find it |
| LegacyBuilder.OutputAdded | src/ShaderBuilder.cpp:64-76 | the same for outputs |
| LegacyBuilder.TemporaryAdded | src/ShaderBuilder.cpp:78-88 | adding a temporary keeps the invariant |
| LegacyBuilder.ConstantAdded | src/ShaderBuilder.cpp:90-105 | adding a constant keeps the invariant and records its payload |
| LegacyBuilder.UniformAdded | src/ShaderBuilder.cpp:107-133 | adding a uniform keeps the invariant and records its name where lookups find it |
| LegacyBuilder.TextureAdded | src/ShaderBuilder.cpp:135-145 | adding a texture keeps the invariant and draws no counter |
| LegacyBuilder.DenseDistinct | src/ShaderBuilder.cpp:50-133 | two symbols that drew from the same counter fewer than 2^32 times have different indices |
| LegacySpirv.Selection | src/SpirvShaderGenerator.cpp:211-291 | a pass over inputs takes every input and locates it by its index; a pass over outputs needs the output's recorded semantic, skips the position and locates the others by the semantic's index |
| LegacySpirv.LowerStatementMeaning | src/SpirvShaderGenerator.cpp:143-198 | a statement lowers exactly when it is an ASSIGN of a whole input with a pointer to the position or to a texture coordinate or colour output with a pointer; it then loads the input into the next id, goes through an access chain on the per-vertex block for the position, and stores the loaded value |
| LegacySpirv.ModuleWords | src/SpirvShaderGenerator.cpp:24-28 | a module is the five header words with the bound in word 3, followed by the encoded instructions |
| LegacySpirv.LegacyShaderGenerator.constructor | src/SpirvShaderGenerator.cpp:5-11 | a new generator holds the builder and the shader type, with an empty stream, empty pointer maps and the counter at 1 |
| LegacySpirv.LegacyShaderGenerator.Write32 | src/SpirvShaderGenerator.cpp:293-296 | one word is appended to the stream |
| LegacySpirv.LegacyShaderGenerator.AllocateId | src/SpirvShaderGenerator.cpp:305-308 | hands out the counter's value and moves it on, wrapping at 2^32 |
| LegacySpirv.LegacyShaderGenerator.WriteOp | include/SpirvShaderGenerator.h:90-104 | appends one instruction whose words are the converted parameters |
| LegacySpirv.LegacyShaderGenerator.Emit | include/SpirvShaderGenerator.h:90-104 | appends the given instruction, one word per parameter |
| LegacySpirv.LegacyShaderGenerator.AllocatePointerIds | src/SpirvShaderGenerator.cpp:211-261 | succeeds exactly when every symbol taken is a Float4 not already given a pointer; each taken index then gets the next fresh id, in symbol order |
| LegacySpirv.LegacyShaderGenerator.AllocatePointerId | src/SpirvShaderGenerator.cpp:211-261 | one symbol of that loop: the keys and ids grow by the symbol exactly when it is taken |
| LegacySpirv.LegacyShaderGenerator.AllocateInputPointerIds | src/SpirvShaderGenerator.cpp:211-222 | every Float4 input index, once, gets the next fresh id; a non-Float4 input or a repeated index fails |
| LegacySpirv.LegacyShaderGenerator.AllocateOutputPointerIds | src/SpirvShaderGenerator.cpp:248-261 | the same for outputs other than the position, which need a recorded semantic |
| LegacySpirv.LegacyShaderGenerator.AllocateTypeIds | src/SpirvShaderGenerator.cpp:30-38 | the nine types take ids 1 to 9 in order, the two float4 pointer types 7 and 8 |
| LegacySpirv.LegacyShaderGenerator.AllocateAll | src/SpirvShaderGenerator.cpp:30-47 | the types take 1 to 9, the input pointers follow, then the output pointers, then the per-vertex variable, the zero constant, main and its label; it fails exactly when an allocation does |
| LegacySpirv.LegacyShaderGenerator.AllocateMainIds | src/SpirvShaderGenerator.cpp:43-47 | the per-vertex variable, the zero constant, main and its label take the next four ids |
| LegacySpirv.LegacyShaderGenerator.WritePass | src/SpirvShaderGenerator.cpp:224-291 | a decorate or declare pass writes exactly the pass's instructions and fails exactly when a taken symbol has no pointer |
| LegacySpirv.LegacyShaderGenerator.WritePreamble | src/SpirvShaderGenerator.cpp:49-95 | the capability, the memory model, the entry point and, for fragment shaders, the origin-upper-left execution mode |
| LegacySpirv.LegacyShaderGenerator.WriteCapabilities | src/SpirvShaderGenerator.cpp:49-50 | the Shader capability and the logical GLSL450 memory model |
| LegacySpirv.LegacyShaderGenerator.WriteEntryPoint | src/SpirvShaderGenerator.cpp:52-90 | the entry point "main" of the stage's execution model, with the input pointers then (vertex shaders) the per-vertex variable and the output pointers as its interface |
| LegacySpirv.LegacyShaderGenerator.WriteAnnotations | src/SpirvShaderGenerator.cpp:101-107 | for vertex shaders, the per-vertex block's Position and PointSize built-ins and its Block decoration; nothing for fragment shaders |
| LegacySpirv.LegacyShaderGenerator.WriteTypes | src/SpirvShaderGenerator.cpp:112-124 | the type declarations, with the per-vertex pointer type only in vertex shaders |
| LegacySpirv.LegacyShaderGenerator.WriteScalarTypes | src/SpirvShaderGenerator.cpp:113-117 | void, the main function type, float, float4 and int32 |
| LegacySpirv.LegacyShaderGenerator.WriteCompositeTypes | src/SpirvShaderGenerator.cpp:118-124 | the per-vertex structure and the pointer types |
| LegacySpirv.LegacyShaderGenerator.WriteGlobals | src/SpirvShaderGenerator.cpp:129-141 | the per-vertex variable (vertex shaders), the zero constant, then OpFunction and OpLabel of main |
| LegacySpirv.LegacyShaderGenerator.DecorateInputPointerIds | src/SpirvShaderGenerator.cpp:224-234 | each input pointer is decorated with the input's index as its location; an input without a pointer fails |
| LegacySpirv.LegacyShaderGenerator.DecorateOutputPointerIds | src/SpirvShaderGenerator.cpp:263-277 | each non-position output pointer is decorated with its semantic's index as location |
| LegacySpirv.LegacyShaderGenerator.DeclareInputPointerIds | src/SpirvShaderGenerator.cpp:236-246 | an Input variable of the float4 input pointer type per input pointer |
| LegacySpirv.LegacyShaderGenerator.DeclareOutputPointerIds | src/SpirvShaderGenerator.cpp:279-291 | an Output variable of the float4 output pointer type per non-position output pointer |
| LegacySpirv.LegacyShaderGenerator.WriteDeclarations | src/SpirvShaderGenerator.cpp:49-141 | everything from the capability to main's label, failing exactly when a pass does |
| LegacySpirv.LegacyShaderGenerator.WriteDecorations | src/SpirvShaderGenerator.cpp:49-110 | the preamble, the annotations, then the input and output location decorations |
| LegacySpirv.LegacyShaderGenerator.WriteVariables | src/SpirvShaderGenerator.cpp:112-141 | the types, the pointer variables and the globals |
| LegacySpirv.LegacyShaderGenerator.WriteHeader | src/SpirvShaderGenerator.cpp:24-28 | the magic number, the version, generator 0, a zero bound and schema 0 |
| LegacySpirv.LegacyShaderGenerator.WriteEpilogue | src/SpirvShaderGenerator.cpp:200-201 | OpReturn then OpFunctionEnd |
| LegacySpirv.LegacyShaderGenerator.PatchBound | src/SpirvShaderGenerator.cpp:204-208 | word 3 becomes the counter after the last id, so the stream is the module's words |
| LegacySpirv.LegacyShaderGenerator.LowerStatements | src/SpirvShaderGenerator.cpp:143-198 | each statement, in order, is lowered from the ids issued before it, stopping at the first failure |
| LegacySpirv.LegacyShaderGenerator.WriteLowered | src/SpirvShaderGenerator.cpp:143-198 | the lowered instructions are appended and the counter moves past the ids they used |
| LegacySpirv.LegacyShaderGenerator.WriteStatements | src/SpirvShaderGenerator.cpp:143-198 | main's body is the statements' lowering, and fails exactly when a statement does |
| LegacySpirv.LegacyShaderGenerator.Generate | src/SpirvShaderGenerator.cpp:19-209 | succeeds exactly when both pointer allocations, the declarations and every statement do; the stream is then the header with bound one past the last id, the declarations, main's body and its end |
| LegacySpirv.LegacyShaderGenerator.WriteDeclared | src/SpirvShaderGenerator.cpp:24-141 | the header, the ids and the declarations, with the counter 13 past both pointer counts |
| LegacySpirv.LegacyShaderGenerator.WriteMain | src/SpirvShaderGenerator.cpp:143-208 | the statements, the end of main and the bound |
| LegacySpirv.AllocKeysExact | src/SpirvShaderGenerator.cpp:211-261 | the allocated keys are distinct, and an index is a key exactly when some symbol taken by the side has it |
| LegacySpirv.AllocKeysTaken | src/SpirvShaderGenerator.cpp:211-261 | a successful allocation took only Float4 symbols, and every symbol's selection succeeded |
| LegacySpirv.IdMapAt | src/SpirvShaderGenerator.cpp:211-261 | the pointer map holds exactly the keys, the j-th key mapped to the j-th id drawn |
| LegacySpirv.IdMapGrow | src/SpirvShaderGenerator.cpp:219-220 | a new key gets the next id and the others keep theirs |
| LegacySpirv.AllocKeysErr | src/SpirvShaderGenerator.cpp:211-261 | once the allocation stops at a symbol, it stops for every longer prefix |
| LegacySpirv.PassErr | src/SpirvShaderGenerator.cpp:224-291 | once a pass stops at a symbol, it stops for every longer prefix |
| LegacySpirv.LowerWithErr | src/SpirvShaderGenerator.cpp:143-198 | once lowering stops at a statement, the result for any longer prefix is the same error |
| LegacySpirv.LowerAllIssued | src/SpirvShaderGenerator.cpp:143-198 | lowering never hands ids back |
| LegacySpirv.LowerWithStep | src/SpirvShaderGenerator.cpp:143-198 | one more statement adds exactly its own lowering, from the ids issued so far |
| LegacySpirv.PassWritesExact | src/SpirvShaderGenerator.cpp:224-291 | a pass succeeds exactly when every selection succeeds and every taken symbol has a pointer; it then writes each taken symbol's instruction and nothing else |
| LegacySpirv.AllocatedPassesSucceed | src/SpirvShaderGenerator.cpp:211-291 | after a successful allocation, the decorate and declare passes of that side cannot fail |
| LegacySpirv.DeclarationsSucceed | src/SpirvShaderGenerator.cpp:40-141 | once both allocations succeed, everything before the statements is written |

## Left out

- Streams: `Framework::CStream` and its `Seek` are modelled as a sequence of words; the bound is patched by replacing word 3 of that sequence.
- Failures: a C++ `assert` ends the program (or is compiled out). The model returns an error at the first violated assert and states nothing about what was written before it.
- Legacy statements are lowered first and written afterwards. The C++ writes each statement as it goes, so the two differ only in what sits in the stream when a statement fails.
- Floating point: a float is its 32-bit pattern and nothing computes with it. `m_floatConstantIds` is a `std::map<float, uint32>`, which the source walks in numeric order. The model walks it in order of bit pattern, which is numeric order only for non-negative floats.
- SpirvGenerator.SpirvShaderGenerator.RegisterFloatConstant: float constants are keyed by bit pattern, so +0.0 and -0.0 get two ids where the source's `std::map<float, uint32>` merges them into one, and NaN, which `std::map` cannot order, is not singled out.
- SpirvGenerator.SpirvShaderGenerator.Generate: the id bound written into word 3 is proved to be the number of ids issued plus one (before 32-bit wrap-around); that every result id in the module is below that bound is not stated.
- The `%f` conversion of the text generators is the `format` parameter. Its output is not modelled.
- The legacy generator writes `spv::Version` from the `spirv.hpp` header, which is not part of this model. Its comment asks for 0x00010000, and the model takes that value (the current generator writes 0x00010300 literally).
- Compute shaders: the current generator's `.cpp` handles `SHADER_TYPE_COMPUTE` (src/generators/SpirvShaderGenerator.cpp:114, 652, 675), but the `SHADER_TYPE` enum in its header lists only vertex and fragment. The model follows the `.cpp` and keeps the compute stage.
- Operations without a SPIR-V, GLSL or HLSL case are contract violations, modelled as errors.
- The legacy `MapSemanticToLocation` returns 0 and nothing calls it. It is not modelled.
- A legacy look-up of a missing key is undefined in the source and returns an error in the model.
- include/ShaderBuilder.h is not part of this model. The legacy builder's counters start at 0, as its constructor leaves them, and its symbols carry unit 0 because the legacy symbol record has no unit field.

## Findings

| source | as written | input that shows it | evidently intended | confidence | as-written member | corrected member |
|---|---|---|---|---|---|---|
| src/generators/SpirvShaderGenerator.cpp:961-970 | texture pointer ids are keyed by symbol index, and a repeated index fails the assert | two textures, both given index 0xFFFFFFFF by the builder (src/builder/ShaderBuilder.cpp:451, 464) | keyed by texture unit, so that different units get their own pointers | not executed | SpirvGenerator.SpirvShaderGenerator.AllocateTextureIdsAsWritten | SpirvGenerator.SpirvShaderGenerator.AllocateTextureIds |
| include/nuanceur/generators/SpirvShaderGenerator.h:38-41 | string bytes are shifted as signed `char`, which is promoted to `int` first | "é" (bytes 0xC3 0xA9) packs to 0xFFFFFFC3, which does not read back as the string | bytes packed unsigned: 0x0000A9C3 | not executed | SpirvEncoding.SignedCharPacking | SpirvEncoding.PackString |
| src/generators/SpirvShaderGenerator.cpp:972-982 | the texture's `Binding` decoration carries the symbol's index | one texture at unit 0: the builder gives it index 0xFFFFFFFF, so it is bound to 0xFFFFFFFF | bound to its texture unit, 0 | not executed | SpirvPasses.TextureBindingAsWritten | SpirvPasses.TextureDecoration |
| src/generators/GlslShaderGenerator.cpp:233 | samplers are named by the texture's symbol index, here and in the SAMPLE case (163-165) | any texture: its index is -1, giving the name "c_sampler-1" for every texture | named by texture unit, one sampler per unit | not executed | Glsl.SamplersShareNameAsWritten | Glsl.SamplerNamesDistinct |

/** The fixed parts of the module that `CSpirvShaderGenerator::Generate`
  * (src/generators/SpirvShaderGenerator.cpp) writes around its passes: capabilities, entry point
  * and execution modes; the per-vertex block's annotations; the basic and image types; and the
  * frame of the main function. */
module SpirvModule {
  import opened Wrappers
  import opened Ir
  import opened ShaderProgram
  import opened Spv
  import opened SpirvEncoding
  import opened SpirvSupport
  import opened SpirvPasses

  /** The name of the entry point. */
  const EntryPointName: string := "main"
  /** The extension a shader with an invocation interlock declares. */
  const InterlockExtension: string := "SPV_EXT_fragment_shader_interlock"

  /** The string is made of 7-bit characters other than NUL, and is not too long for an
    * instruction. */
  predicate IsAscii(s: string)
  {
    && |s| < 0x1_0000
    && forall k :: 0 <= k < |s| ==> 0 < s[k] as int < 0x80
  }

  lemma NamesAreAscii()
    ensures IsAscii(EntryPointName) && IsAscii(InterlockExtension)
  {
  }

  /** A string of 7-bit characters, as the bytes `WriteOp` packs. */
  function Ascii(s: string): (bs: seq<byte>)
    requires IsAscii(s)
    ensures |bs| == |s| && IsCString(bs)
    ensures forall k :: 0 <= k < |s| ==> bs[k] == s[k] as int
  {
    seq(|s|, k requires 0 <= k < |s| => s[k] as int)
  }

  /** The execution model of each stage. */
  function ExecutionModel(stage: ShaderType): u32
  {
    match stage
    case VertexShader => ExecutionModelVertex
    case FragmentShader => ExecutionModelFragment
    case ComputeShader => ExecutionModelGLCompute
  }

  /** `m_hasTextures`: some symbol is a texture or image. */
  predicate HasTextures(p: Program)
  {
    exists i | 0 <= i < |p.symbols| :: p.symbols[i].location == Texture
  }

  /** `hasInvocationInterlock`: some statement begins an invocation interlock. */
  predicate HasInvocationInterlock(p: Program)
  {
    exists i | 0 <= i < |p.statements| :: p.statements[i].op == InvocationInterlockBegin
  }

  /** What a pass that succeeded wrote; nothing for one that failed. */
  function Listed(r: Result<seq<Instruction>>): seq<Instruction>
  {
    if r.Ok? then r.value else []
  }

  // ----- preamble -----

  /** The capabilities: shaders, and pixel interlocks when the shader uses one. */
  function CapabilityList(interlock: bool): seq<Instruction>
  {
    [Instruction(OpCapability, [CapabilityShader])]
    + if interlock then [Instruction(OpCapability, [CapabilityFragmentShaderPixelInterlockEXT])] else []
  }

  /** The extensions: the interlock extension when the shader uses one. */
  function Extensions(interlock: bool): seq<Instruction>
  {
    if interlock then [InterlockExtensionInstruction()] else []
  }

  /** The logical addressing model and the GLSL450 memory model. */
  const MemoryModel: Instruction := Instruction(OpMemoryModel, [AddressingModelLogical, MemoryModelGLSL450])

  lemma CapabilitiesInSections(interlock: bool)
    ensures InSection(CapabilityList(interlock), 1) && InSection(Extensions(interlock), 2)
    ensures InSection([MemoryModel], 4)
  {
  }

  /** The capabilities, the interlock extension when the shader uses one, and the memory model. */
  function Capabilities(interlock: bool): seq<Instruction>
  {
    CapabilityList(interlock) + Extensions(interlock) + [MemoryModel]
  }

  /** `OpExtension` with the interlock extension's name, packed. */
  function InterlockExtensionInstruction(): Instruction
  {
    Instruction(OpExtension, InterlockExtensionWords)
  }

  /** The name "main", packed four bytes to a word with its terminator. */
  const EntryPointNameWords: seq<Word> := [0x6E69_616D, 0]
  /** "SPV_EXT_fragment_shader_interlock" (33 bytes), packed with its terminator. */
  const InterlockExtensionWords: seq<Word> :=
    [0x5F56_5053, 0x5F54_5845, 0x6761_7266, 0x746E_656D, 0x6168_735F, 0x5F72_6564, 0x6574_6E69, 0x636F_6C72, 0x0000_006B]

  /** `WriteOp`'s string conversion packs "main" into these words, which read back as the name. */
  lemma MainNameWords()
    ensures IsAscii(EntryPointName) && ConvertParam(Text(Ascii(EntryPointName))) == EntryPointNameWords
    ensures UntilNul(Unbytes(EntryPointNameWords)) == Ascii(EntryPointName)
  {
    NamesAreAscii();
    var s := Ascii(EntryPointName);
    assert s == [0x6D, 0x61, 0x69, 0x6E];
    PackMain(s);
  }

  /** The packing of those bytes, word by word. */
  lemma PackMain(s: seq<byte>)
    requires s == [0x6D, 0x61, 0x69, 0x6E]
    ensures StringWords(s) == EntryPointNameWords
  {
    var ws := StringWords(s);
    TwoWords(ws);
    assert ByteAt(s, 0) == 0x6D && ByteAt(s, 1) == 0x61 && ByteAt(s, 2) == 0x69 && ByteAt(s, 3) == 0x6E;
    assert ws[0] == WordAt(s, 0) == 0x6E69_616D;
    assert ByteAt(s, 4) == 0x00 && ByteAt(s, 5) == 0x00 && ByteAt(s, 6) == 0x00 && ByteAt(s, 7) == 0x00;
    assert ws[1] == WordAt(s, 1) == 0x0000_0000;
  }

  /** The same for the interlock extension's name. */
  lemma InterlockNameWords()
    ensures IsAscii(InterlockExtension) && ConvertParam(Text(Ascii(InterlockExtension))) == InterlockExtensionWords
    ensures UntilNul(Unbytes(InterlockExtensionWords)) == Ascii(InterlockExtension)
  {
    NamesAreAscii();
    var s := Ascii(InterlockExtension);
    assert s == [0x53, 0x50, 0x56, 0x5F, 0x45, 0x58, 0x54, 0x5F, 0x66, 0x72, 0x61, 0x67, 0x6D, 0x65, 0x6E, 0x74, 0x5F, 0x73, 0x68, 0x61, 0x64, 0x65, 0x72, 0x5F, 0x69, 0x6E, 0x74, 0x65, 0x72, 0x6C, 0x6F, 0x63, 0x6B];
    PackInterlock(s);
  }

  /** The packing of those bytes, word by word. */
  lemma PackInterlock(s: seq<byte>)
    requires s == [0x53, 0x50, 0x56, 0x5F, 0x45, 0x58, 0x54, 0x5F, 0x66, 0x72, 0x61, 0x67, 0x6D, 0x65, 0x6E, 0x74, 0x5F, 0x73, 0x68, 0x61, 0x64, 0x65, 0x72, 0x5F, 0x69, 0x6E, 0x74, 0x65, 0x72, 0x6C, 0x6F, 0x63, 0x6B]
    ensures StringWords(s) == InterlockExtensionWords
  {
    NineWords(StringWords(s));
    PackInterlockHead(s, 0);
    PackInterlockHead(s, 1);
    PackInterlockHead(s, 2);
    PackInterlockMiddle(s, 3);
    PackInterlockMiddle(s, 4);
    PackInterlockMiddle(s, 5);
    PackInterlockTail(s, 6);
    PackInterlockTail(s, 7);
    PackInterlockTail(s, 8);
  }

  /** Words 0 to 2 of that packing. */
  lemma PackInterlockHead(s: seq<byte>, j: nat)
    requires s == [0x53, 0x50, 0x56, 0x5F, 0x45, 0x58, 0x54, 0x5F, 0x66, 0x72, 0x61, 0x67, 0x6D, 0x65, 0x6E, 0x74, 0x5F, 0x73, 0x68, 0x61, 0x64, 0x65, 0x72, 0x5F, 0x69, 0x6E, 0x74, 0x65, 0x72, 0x6C, 0x6F, 0x63, 0x6B]
    requires 0 <= j < 3
    ensures |StringWords(s)| == 9 && StringWords(s)[j] == InterlockExtensionWords[j]
  {
    var ws := StringWords(s);
    if j == 0 {
      assert ByteAt(s, 0) == 0x53 && ByteAt(s, 1) == 0x50 && ByteAt(s, 2) == 0x56 && ByteAt(s, 3) == 0x5F;
      assert ws[0] == WordAt(s, 0) == 0x5F56_5053;
    } else if j == 1 {
      assert ByteAt(s, 4) == 0x45 && ByteAt(s, 5) == 0x58 && ByteAt(s, 6) == 0x54 && ByteAt(s, 7) == 0x5F;
      assert ws[1] == WordAt(s, 1) == 0x5F54_5845;
    } else if j == 2 {
      assert ByteAt(s, 8) == 0x66 && ByteAt(s, 9) == 0x72 && ByteAt(s, 10) == 0x61 && ByteAt(s, 11) == 0x67;
      assert ws[2] == WordAt(s, 2) == 0x6761_7266;
    }
  }

  /** Words 3 to 5 of that packing. */
  lemma PackInterlockMiddle(s: seq<byte>, j: nat)
    requires s == [0x53, 0x50, 0x56, 0x5F, 0x45, 0x58, 0x54, 0x5F, 0x66, 0x72, 0x61, 0x67, 0x6D, 0x65, 0x6E, 0x74, 0x5F, 0x73, 0x68, 0x61, 0x64, 0x65, 0x72, 0x5F, 0x69, 0x6E, 0x74, 0x65, 0x72, 0x6C, 0x6F, 0x63, 0x6B]
    requires 3 <= j < 6
    ensures |StringWords(s)| == 9 && StringWords(s)[j] == InterlockExtensionWords[j]
  {
    var ws := StringWords(s);
    if j == 3 {
      assert ByteAt(s, 12) == 0x6D && ByteAt(s, 13) == 0x65 && ByteAt(s, 14) == 0x6E && ByteAt(s, 15) == 0x74;
      assert ws[3] == WordAt(s, 3) == 0x746E_656D;
    } else if j == 4 {
      assert ByteAt(s, 16) == 0x5F && ByteAt(s, 17) == 0x73 && ByteAt(s, 18) == 0x68 && ByteAt(s, 19) == 0x61;
      assert ws[4] == WordAt(s, 4) == 0x6168_735F;
    } else if j == 5 {
      assert ByteAt(s, 20) == 0x64 && ByteAt(s, 21) == 0x65 && ByteAt(s, 22) == 0x72 && ByteAt(s, 23) == 0x5F;
      assert ws[5] == WordAt(s, 5) == 0x5F72_6564;
    }
  }

  /** Words 6 to 8 of that packing. */
  lemma PackInterlockTail(s: seq<byte>, j: nat)
    requires s == [0x53, 0x50, 0x56, 0x5F, 0x45, 0x58, 0x54, 0x5F, 0x66, 0x72, 0x61, 0x67, 0x6D, 0x65, 0x6E, 0x74, 0x5F, 0x73, 0x68, 0x61, 0x64, 0x65, 0x72, 0x5F, 0x69, 0x6E, 0x74, 0x65, 0x72, 0x6C, 0x6F, 0x63, 0x6B]
    requires 6 <= j < 9
    ensures |StringWords(s)| == 9 && StringWords(s)[j] == InterlockExtensionWords[j]
  {
    var ws := StringWords(s);
    if j == 6 {
      assert ByteAt(s, 24) == 0x69 && ByteAt(s, 25) == 0x6E && ByteAt(s, 26) == 0x74 && ByteAt(s, 27) == 0x65;
      assert ws[6] == WordAt(s, 6) == 0x6574_6E69;
    } else if j == 7 {
      assert ByteAt(s, 28) == 0x72 && ByteAt(s, 29) == 0x6C && ByteAt(s, 30) == 0x6F && ByteAt(s, 31) == 0x63;
      assert ws[7] == WordAt(s, 7) == 0x636F_6C72;
    } else if j == 8 {
      assert ByteAt(s, 32) == 0x6B && ByteAt(s, 33) == 0x00 && ByteAt(s, 34) == 0x00 && ByteAt(s, 35) == 0x00;
      assert ws[8] == WordAt(s, 8) == 0x0000_006B;
    }
  }

  /** The output interface of the entry point: the per-vertex variable first (vertex shaders
    * only), then the output pointers in key order. */
  function EntryOutputs(stage: ShaderType, perVertexVariable: u32, outputs: map<u32, u32>): seq<u32>
  {
    (if stage == VertexShader then [perVertexVariable] else []) + ValuesByKey(outputs)
  }

  /** The output interface lists every output pointer once, after the per-vertex variable of a
    * vertex shader. */
  lemma EntryOutputsMembers(stage: ShaderType, perVertexVariable: u32, outputs: map<u32, u32>)
    ensures var vs := EntryOutputs(stage, perVertexVariable, outputs);
      && |vs| == |outputs.Keys| + (if stage == VertexShader then 1 else 0)
      && (stage == VertexShader ==> vs[0] == perVertexVariable)
      && forall v :: v in vs <==> v in outputs.Values || (stage == VertexShader && v == perVertexVariable)
  {
    ValuesByKeyMembers(outputs);
  }

  /** `OpEntryPoint`: the stage's execution model, the main function, its name and the input and
    * output interface variables. */
  function EntryPoint(stage: ShaderType, mainFunction: u32, inputs: seq<u32>, outputs: seq<u32>): Instruction
  {
    Instruction(OpEntryPoint, [ExecutionModel(stage), mainFunction] + EntryPointNameWords + inputs + outputs)
  }

  /** The execution modes: fragment shaders put the origin at the upper left (and order pixel
    * interlocks when they use one), compute shaders run 128 x 1 x 1 invocations per group. */
  function ExecutionModes(stage: ShaderType, interlock: bool, mainFunction: u32): seq<Instruction>
  {
    match stage
    case VertexShader => []
    case FragmentShader =>
      [Instruction(OpExecutionMode, [mainFunction, ExecutionModeOriginUpperLeft])]
      + (if interlock then [Instruction(OpExecutionMode, [mainFunction, ExecutionModePixelInterlockOrderedEXT])] else [])
    case ComputeShader => [Instruction(OpExecutionMode, [mainFunction, ExecutionModeLocalSize, 128, 1, 1])]
  }

  lemma ExecutionModesInSection(stage: ShaderType, interlock: bool, mainFunction: u32)
    ensures InSection(ExecutionModes(stage, interlock, mainFunction), 6)
  {
  }

  /** Everything `Generate` writes before the annotations: the capabilities, the entry point
    * with its input and output interface, and the execution modes. */
  function Preamble(stage: ShaderType, interlock: bool, mainFunction: u32, inputs: seq<u32>, outputs: seq<u32>): seq<Instruction>
  {
    Capabilities(interlock) + [EntryPoint(stage, mainFunction, inputs, outputs)] + ExecutionModes(stage, interlock, mainFunction)
  }

  /** Converting a parameter list is converting its head, then its tail. */
  lemma ConvertParamsCons(p: Param, ps: seq<Param>, tail: seq<Word>)
    requires ValidParam(p) && ValidParams(ps) && ConvertParams(ps) == tail
    ensures ValidParams([p] + ps) && ConvertParams([p] + ps) == ConvertParam(p) + tail
  {
    assert ([p] + ps)[1..] == ps;
  }

  /** Five `WriteOp` parameters of the entry point's kinds convert to the enumerant, the id,
    * the packed string and the two id lists, in that order. */
  lemma InterfaceParams(model: u32, fn: u32, name: seq<byte>, inputs: seq<u32>, outputs: seq<u32>)
    requires ValidParam(Text(name))
    ensures ValidParams([EnumValue(model), Num(fn), Text(name), Vector(inputs), Vector(outputs)])
    ensures ConvertParams([EnumValue(model), Num(fn), Text(name), Vector(inputs), Vector(outputs)])
            == [model, fn] + ConvertParam(Text(name)) + inputs + outputs
  {
    var w := ConvertParam(Text(name));
    var last := [Vector(outputs)];
    assert last[1..] == [];
    ConvertParamsCons(Vector(inputs), last, outputs);
    var lists := [Vector(inputs)] + last;
    ConvertParamsCons(Text(name), lists, inputs + outputs);
    var named := [Text(name)] + lists;
    ConvertParamsCons(Num(fn), named, w + (inputs + outputs));
    var withFunction := [Num(fn)] + named;
    ConvertParamsCons(EnumValue(model), withFunction, [fn] + (w + (inputs + outputs)));
    Consed(EnumValue(model), Num(fn), Text(name), Vector(inputs), Vector(outputs));
    Regrouped(model, fn, w, inputs, outputs);
  }

  /** `WriteOp(spv::OpEntryPoint, executionModel, mainFunctionId, "main", inputs, outputs)` writes
    * the entry point: its parameters convert to the execution model, the main function, the
    * name "main" packed into two words (which read back as the name), then the interface ids
    * verbatim. */
  lemma EntryPointOperands(stage: ShaderType, mainFunction: u32, inputs: seq<u32>, outputs: seq<u32>)
    ensures IsAscii(EntryPointName) && UntilNul(Unbytes(EntryPointNameWords)) == Ascii(EntryPointName)
    ensures ValidParams([EnumValue(ExecutionModel(stage)), Num(mainFunction), Text(Ascii(EntryPointName)),
      Vector(inputs), Vector(outputs)])
    ensures ConvertParams([EnumValue(ExecutionModel(stage)), Num(mainFunction), Text(Ascii(EntryPointName)),
      Vector(inputs), Vector(outputs)]) == EntryPoint(stage, mainFunction, inputs, outputs).operands
  {
    MainNameWords();
    InterfaceParams(ExecutionModel(stage), mainFunction, Ascii(EntryPointName), inputs, outputs);
  }

  /** `WriteOp(spv::OpExtension, "SPV_EXT_fragment_shader_interlock")` writes the interlock
    * extension instruction. */
  lemma InterlockExtensionOperands()
    ensures IsAscii(InterlockExtension) && ValidParams([Text(Ascii(InterlockExtension))])
    ensures ConvertParams([Text(Ascii(InterlockExtension))]) == InterlockExtensionWords
    ensures UntilNul(Unbytes(InterlockExtensionWords)) == Ascii(InterlockExtension)
  {
    InterlockNameWords();
    ConvertParamsCons(Text(Ascii(InterlockExtension)), [], []);
    assert [Text(Ascii(InterlockExtension))] + [] == [Text(Ascii(InterlockExtension))];
  }

  // ----- annotations -----

  /** The built-in position and point size members of the per-vertex block, and its Block
    * decoration (vertex shaders only). */
  function PerVertexAnnotations(stage: ShaderType, perVertexStructType: u32): seq<Instruction>
  {
    if stage == VertexShader then
      [Instruction(OpMemberDecorate, [perVertexStructType, 0, DecorationBuiltIn, BuiltInPosition]),
       Instruction(OpMemberDecorate, [perVertexStructType, 1, DecorationBuiltIn, BuiltInPointSize]),
       Instruction(OpDecorate, [perVertexStructType, DecorationBlock])]
    else []
  }

  /** The stride of the runtime uint array, the last annotation. */
  function ArrayStride(t: TypeIds): Instruction
  {
    Instruction(OpDecorate, [t.uintArrayType, DecorationArrayStride, 4])
  }

  // ----- types -----

  /** The basic types, in declaration order; then the per-vertex block and its pointer for a
    * vertex shader, or the int3 vector and its input pointer for a compute shader. */
  function BasicTypes(stage: ShaderType, t: TypeIds, ids: MainIds): seq<Instruction>
  {
    [Instruction(OpTypeVoid, [ids.voidType]),
     Instruction(OpTypeFunction, [ids.mainFunctionType, ids.voidType]),
     Instruction(OpTypeBool, [t.boolType]),
     Instruction(OpTypeFloat, [t.floatType, 32]),
     Instruction(OpTypeVector, [t.float4Type, t.floatType, 4]),
     Instruction(OpTypeMatrix, [t.matrix44Type, t.float4Type, 4]),
     Instruction(OpTypeInt, [t.intType, 32, 1]),
     Instruction(OpTypeVector, [t.int4Type, t.intType, 4]),
     Instruction(OpTypeInt, [t.uintType, 32, 0]),
     Instruction(OpTypeVector, [t.uint4Type, t.uintType, 4]),
     Instruction(OpTypeRuntimeArray, [t.uintArrayType, t.uintType]),
     Instruction(OpTypePointer, [t.inputFloat4Pointer, StorageClassInput, t.float4Type]),
     Instruction(OpTypePointer, [t.outputFloat4Pointer, StorageClassOutput, t.float4Type])]
    + match stage
      case VertexShader =>
        [Instruction(OpTypeStruct, [ids.perVertexStructType, t.float4Type, t.floatType]),
         Instruction(OpTypePointer, [ids.outputPerVertexStructPointer, StorageClassOutput, ids.perVertexStructType])]
      case FragmentShader => []
      case ComputeShader =>
        [Instruction(OpTypeVector, [t.int3Type, t.intType, 3]),
         Instruction(OpTypePointer, [t.inputInt3Pointer, StorageClassInput, t.int3Type])]
  }

  /** The sampled image (float, sampled) and storage image (uint, R32ui) types and their pointer
    * types, declared when there is a texture. */
  function ImageTypes(t: TypeIds): seq<Instruction>
  {
    [Instruction(OpTypeImage, [t.sampledImage2DType, t.floatType, Dim2D, 0, 0, 0, 1, ImageFormatUnknown]),
     Instruction(OpTypeSampledImage, [t.sampledImageSamplerType, t.sampledImage2DType]),
     Instruction(OpTypePointer, [t.sampledImageSamplerPointer, StorageClassUniformConstant, t.sampledImageSamplerType]),
     Instruction(OpTypeImage, [t.storageImage2DType, t.uintType, Dim2D, 0, 0, 0, 2, ImageFormatR32ui]),
     Instruction(OpTypePointer, [t.storageImage2DPointer, StorageClassUniformConstant, t.storageImage2DType])]
  }

  /** What `DeclareUniformStructIds` writes: nothing without blocks, otherwise the block types
    * and the pointer types to block members. */
  function UniformTypes(infos: map<u32, StructInfo>, t: TypeIds): seq<Instruction>
  {
    if infos == map[] then [] else BlockTypeList(infos) + MemberPointerTypes(t)
  }

  /** The variable of the per-vertex block (vertex shaders only). */
  function PerVertexVariable(stage: ShaderType, t: TypeIds, ids: MainIds): seq<Instruction>
  {
    if stage == VertexShader then [Instruction(OpVariable, [ids.outputPerVertexStructPointer, t.outputPerVertexVariable, StorageClassOutput])]
    else []
  }

  /** The basic and image types all belong to the section of types, constants and global
    * variables. */
  lemma TypesInSection(stage: ShaderType, t: TypeIds, ids: MainIds)
    ensures InSection(BasicTypes(stage, t, ids), 9) && InSection(ImageTypes(t), 9)
  {
    var b := BasicTypes(stage, t, ids);
    assert forall k :: 0 <= k < |b| ==> Rank(b[k].opcode) == 9;
  }

  // ----- the main function -----

  /** The header of the main function: `OpFunction` (void result, no function control) and its
    * first label. */
  function MainHead(ids: MainIds): seq<Instruction>
  {
    [Instruction(OpFunction, [ids.voidType, ids.mainFunction, FunctionControlMaskNone, ids.mainFunctionType]),
     Instruction(OpLabel, [ids.mainFunctionLabel])]
  }

  /** The end of the main function. */
  const MainTail: seq<Instruction> := [Instruction(OpReturn, []), Instruction(OpFunctionEnd, [])]

  // ----- sequence helpers -----

  /** Appending nothing leaves a list as it is. */
  lemma NothingAppended(ins: seq<Instruction>)
    ensures ins + [] == ins
  {
  }

  /** Prepending nothing leaves a list as it is. */
  lemma NothingBefore(ins: seq<Instruction>)
    ensures [] + ins == ins
  {
  }

  /** A list of two words is the display of its two words. */
  lemma TwoWords(ws: seq<Word>)
    requires |ws| == 2
    ensures ws == [ws[0], ws[1]]
  {
  }

  /** A list of nine words is the display of its nine words. */
  lemma NineWords(ws: seq<Word>)
    requires |ws| == 9
    ensures ws == [ws[0], ws[1], ws[2], ws[3], ws[4], ws[5], ws[6], ws[7], ws[8]]
  {
  }

  /** Five parameters consed one by one onto the last are the list of the five. */
  lemma Consed(a: Param, b: Param, c: Param, d: Param, e: Param)
    ensures [a] + ([b] + ([c] + ([d] + [e]))) == [a, b, c, d, e]
  {
  }

  /** The entry point's operand words, grouped as the parameters convert. */
  lemma Regrouped(model: u32, fn: u32, w: seq<u32>, inputs: seq<u32>, outputs: seq<u32>)
    ensures [model] + ([fn] + (w + (inputs + outputs))) == [model, fn] + w + inputs + outputs
  {
    assert [model] + [fn] == [model, fn];
  }
}

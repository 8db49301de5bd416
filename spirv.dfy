/** The SPIR-V numbers the generators write: opcodes, decorations, storage classes and the other
  * operand enumerations, with the values of the Khronos SPIR-V Specification (section 3), and the
  * logical layout of a module (section 2.4). */
module Spv {
  import opened Ir

  /** An opcode occupies the low 16 bits of an instruction's first word. */
  type Opcode = x: int | 0 <= x < 0x1_0000

  const MagicNumber: u32 := 0x0723_0203
  /** Version word 0x00010300: SPIR-V 1.3. */
  const Version13: u32 := 0x0001_0300

  const OpSource: Opcode := 3
  const OpName: Opcode := 5
  const OpExtension: Opcode := 10
  const OpMemoryModel: Opcode := 14
  const OpEntryPoint: Opcode := 15
  const OpExecutionMode: Opcode := 16
  const OpCapability: Opcode := 17
  const OpTypeVoid: Opcode := 19
  const OpTypeBool: Opcode := 20
  const OpTypeInt: Opcode := 21
  const OpTypeFloat: Opcode := 22
  const OpTypeVector: Opcode := 23
  const OpTypeMatrix: Opcode := 24
  const OpTypeImage: Opcode := 25
  const OpTypeSampledImage: Opcode := 27
  const OpTypeRuntimeArray: Opcode := 29
  const OpTypeStruct: Opcode := 30
  const OpTypePointer: Opcode := 32
  const OpTypeFunction: Opcode := 33
  const OpConstant: Opcode := 43
  const OpConstantComposite: Opcode := 44
  const OpFunction: Opcode := 54
  const OpFunctionEnd: Opcode := 56
  const OpVariable: Opcode := 59
  const OpLoad: Opcode := 61
  const OpStore: Opcode := 62
  const OpAccessChain: Opcode := 65
  const OpDecorate: Opcode := 71
  const OpMemberDecorate: Opcode := 72
  const OpVectorShuffle: Opcode := 79
  const OpCompositeConstruct: Opcode := 80
  const OpCompositeExtract: Opcode := 81
  const OpImageSampleImplicitLod: Opcode := 87
  const OpImageRead: Opcode := 98
  const OpImageWrite: Opcode := 99
  const OpConvertFToU: Opcode := 109
  const OpConvertFToS: Opcode := 110
  const OpConvertUToF: Opcode := 112
  const OpFAdd: Opcode := 129
  const OpFMul: Opcode := 133
  const OpSDiv: Opcode := 135
  const OpFDiv: Opcode := 136
  const OpSMod: Opcode := 139
  const OpMatrixTimesVector: Opcode := 145
  const OpFOrdLessThan: Opcode := 184
  const OpShiftRightLogical: Opcode := 194
  const OpShiftLeftLogical: Opcode := 196
  const OpBitwiseOr: Opcode := 197
  const OpBitwiseAnd: Opcode := 199
  const OpSelectionMerge: Opcode := 247
  const OpLabel: Opcode := 248
  const OpBranch: Opcode := 249
  const OpBranchConditional: Opcode := 250
  const OpReturn: Opcode := 253
  const OpBeginInvocationInterlockEXT: Opcode := 5364
  const OpEndInvocationInterlockEXT: Opcode := 5365

  const CapabilityShader: u32 := 1
  const CapabilityFragmentShaderPixelInterlockEXT: u32 := 5378
  const AddressingModelLogical: u32 := 0
  const MemoryModelGLSL450: u32 := 1
  const ExecutionModelVertex: u32 := 0
  const ExecutionModelFragment: u32 := 4
  const ExecutionModelGLCompute: u32 := 5
  const ExecutionModeOriginUpperLeft: u32 := 7
  const ExecutionModeLocalSize: u32 := 17
  const ExecutionModePixelInterlockOrderedEXT: u32 := 5366

  const DecorationBlock: u32 := 2
  const DecorationBufferBlock: u32 := 3
  const DecorationColMajor: u32 := 5
  const DecorationArrayStride: u32 := 6
  const DecorationMatrixStride: u32 := 7
  const DecorationBuiltIn: u32 := 11
  const DecorationLocation: u32 := 30
  const DecorationBinding: u32 := 33
  const DecorationDescriptorSet: u32 := 34
  const DecorationOffset: u32 := 35

  const BuiltInPosition: u32 := 0
  const BuiltInPointSize: u32 := 1
  const BuiltInFragCoord: u32 := 15
  const BuiltInGlobalInvocationId: u32 := 28

  const StorageClassUniformConstant: u32 := 0
  const StorageClassInput: u32 := 1
  const StorageClassUniform: u32 := 2
  const StorageClassOutput: u32 := 3
  const StorageClassPushConstant: u32 := 9

  const Dim2D: u32 := 1
  const ImageFormatUnknown: u32 := 0
  const ImageFormatR32ui: u32 := 33
  const FunctionControlMaskNone: u32 := 0
  const SelectionControlMaskNone: u32 := 0

  /** The position of an instruction's section in the logical layout of a module (section 2.4 of
    * the Khronos SPIR-V Specification): 1 capabilities, 2 extensions, 4 the memory model, 5 entry
    * points, 6 execution modes, 7 debug instructions, 8 annotations, 9 types, constants and
    * global variables, 11 function definitions. Every `OpVariable` the generators write is a
    * global one. */
  function Rank(op: Opcode): (r: nat)
    ensures 1 <= r <= 11
  {
    if op == OpCapability then 1
    else if op == OpExtension then 2
    else if op == OpMemoryModel then 4
    else if op == OpEntryPoint then 5
    else if op == OpExecutionMode then 6
    else if op == OpSource || op == OpName then 7
    else if op == OpDecorate || op == OpMemberDecorate then 8
    else if || op == OpTypeVoid || op == OpTypeBool || op == OpTypeInt || op == OpTypeFloat
            || op == OpTypeVector || op == OpTypeMatrix || op == OpTypeImage || op == OpTypeSampledImage
            || op == OpTypeRuntimeArray || op == OpTypeStruct || op == OpTypePointer || op == OpTypeFunction
            || op == OpConstant || op == OpConstantComposite || op == OpVariable then 9
    else 11
  }
}

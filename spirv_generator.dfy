/** `CSpirvShaderGenerator` (src/generators/SpirvShaderGenerator.cpp): the generator that turns a
  * built shader into a SPIR-V module. It writes the words of the module to its stream as it goes,
  * allocates ids from a 32-bit counter and keeps the ids it has allocated in maps. */
module SpirvGenerator {
  import opened Wrappers
  import opened Swizzle
  import opened Ir
  import opened ShaderProgram
  import opened Spv
  import opened SpirvEncoding
  import opened SpirvSupport
  import opened SpirvPasses
  import opened SpirvBlocks
  import opened SpirvLowering
  import opened SpirvModule

  // ----- failure messages (the source asserts; the model stops with one of these) -----

  const AllocatePointerIdsKeyAllocatedTwice: string := "AllocatePointerIds: key allocated twice"
  const AllocateOutputPointerIdsOutputIsNotFloat4: string := "AllocateOutputPointerIds: output is not Float4"
  const AllocateOutputPointerIdsOutputIndexAllocatedTwice: string := "AllocateOutputPointerIds: output index allocated twice"
  const GatherConstantsFromTempsUnsupportedTemporaryType: string := "GatherConstantsFromTemps: unsupported temporary type"

  // ----- the module `Generate` writes -----

  /** The main function's body reported by a generation that stops before writing it. */
  const NoBody: Lowered := Lowered([], map[], 0, 0)

  /** What the allocation of `Generate` leaves for its passes: the type ids, the ids of main and
    * of the per-vertex block, whether there are textures, the pointer tables, and the uniform
    * blocks with their ids (their members not yet laid out). */
  datatype Allocation = Allocation(types: TypeIds, ids: MainIds, hasTextures: bool, inputs: map<u32, u32>,
                                   outputs: map<u32, u32>, textures: map<u32, u32>, blocks: map<u32, StructInfo>)

  /** The constant tables once the temporaries' lanes are registered, and the number of ids handed
    * out when the temporaries' composite constants start taking theirs. */
  datatype Constants = Constants(floats: map<Float, u32>, ints: map<u32, u32>, uints: map<u32, u32>, base: nat)

  /** Every uniform has a type a block can hold. */
  predicate UniformsAreMembers(p: Program)
  {
    forall i :: 0 <= i < |p.symbols| && p.symbols[i].location == Uniform ==> IsMemberType(p.symbols[i].ty)
  }

  /** The allocation of `Generate` completes: the uniform blocks can be built, the textures' units
    * (when there are textures) and the inputs' indices are distinct, and the outputs can be
    * given pointers. */
  predicate AllocationOk(p: Program)
  {
    && UniformsAreMembers(p)
    && (HasTextures(p) ==> DistinctKeys(p.symbols, Texture, ByUnit))
    && DistinctKeys(p.symbols, Input, ByIndex)
    && OutputsAllocatable(p)
  }

  /** The pointer tables of an allocation have one key per input index, per output that needs a
    * pointer and (when there are textures) per texture unit. */
  predicate Keyed(p: Program, a: Allocation)
  {
    && a.inputs.Keys == KeySet(p.symbols, Input, ByIndex)
    && a.outputs.Keys == PointerOutputKeys(p, |p.symbols|)
    && (a.hasTextures ==> a.textures.Keys == KeySet(p.symbols, Texture, ByUnit))
  }

  /** The seventeen basic type ids, taken from `base + 1` on in the order `Generate` takes them:
    * void, the main function type, bool, float, float4, uint, uint4, the matrix, the uint array,
    * int, int3, int4, the per-vertex block, the input and output pointer types and the pointer to
    * the per-vertex block. */
  predicate BasicTypeIdsFrom(t: TypeIds, ids: MainIds, base: nat)
  {
    && ids.voidType == ToU32(base + 1) && ids.mainFunctionType == ToU32(base + 2)
    && t.boolType == ToU32(base + 3) && t.floatType == ToU32(base + 4) && t.float4Type == ToU32(base + 5)
    && t.uintType == ToU32(base + 6) && t.uint4Type == ToU32(base + 7) && t.matrix44Type == ToU32(base + 8)
    && t.uintArrayType == ToU32(base + 9) && t.intType == ToU32(base + 10) && t.int3Type == ToU32(base + 11)
    && t.int4Type == ToU32(base + 12) && ids.perVertexStructType == ToU32(base + 13)
    && t.inputFloat4Pointer == ToU32(base + 14) && t.inputInt3Pointer == ToU32(base + 15)
    && t.outputFloat4Pointer == ToU32(base + 16) && ids.outputPerVertexStructPointer == ToU32(base + 17)
  }

  /** The ids taken after `base`: three per block in unit order, then the three member pointer
    * types when there is a block, then the five image types when there are textures. */
  predicate ResourceIdsFrom(t: TypeIds, blocks: map<u32, StructInfo>, hasTextures: bool, base: nat)
  {
    var b := base + 3 * |blocks|;
    var m := b + (if blocks != map[] then 3 else 0);
    && BlockIdsFrom(blocks, base)
    && (blocks != map[] ==>
         t.pushFloat4Pointer == ToU32(b + 1) && t.pushMatrix44Pointer == ToU32(b + 2) && t.uniformUintPointer == ToU32(b + 3))
    && (hasTextures ==>
         && t.sampledImage2DType == ToU32(m + 1) && t.sampledImageSamplerType == ToU32(m + 2)
         && t.sampledImageSamplerPointer == ToU32(m + 3) && t.storageImage2DType == ToU32(m + 4)
         && t.storageImage2DPointer == ToU32(m + 5))
  }

  /** The number of ids `ResourceIdsFrom` describes. */
  function ResourceCount(blocks: map<u32, StructInfo>, hasTextures: bool): nat
  {
    3 * |blocks| + (if blocks != map[] then 3 else 0) + (if hasTextures then 5 else 0)
  }

  /** The number of ids handed out before the texture pointers of an allocation that starts
    * after `base` ids, and before its input pointers, its output pointers, and in all. */
  function TexturesBase(a: Allocation, base: nat): nat
  {
    base + 17 + ResourceCount(a.blocks, a.hasTextures)
  }

  function InputsBase(a: Allocation, base: nat): nat
  {
    TexturesBase(a, base) + |a.textures|
  }

  function OutputsBase(a: Allocation, base: nat): nat
  {
    InputsBase(a, base) + |a.inputs|
  }

  function AllocationEnd(a: Allocation, base: nat): nat
  {
    OutputsBase(a, base) + |a.outputs| + 3
  }

  /** The ids of an allocation that starts after `base` ids, in the order `Generate` hands them
    * out: the basic types, the blocks, the member pointer and image types, one fresh id per
    * texture unit, per input and per pointer output (each table in a range of its own), then the
    * per-vertex variable, the main function and its label. */
  predicate AllocatedFrom(a: Allocation, base: nat)
  {
    && BasicTypeIdsFrom(a.types, a.ids, base)
    && ResourceIdsFrom(a.types, a.blocks, a.hasTextures, base + 17)
    && FreshIds(a.textures, TexturesBase(a, base), InputsBase(a, base))
    && FreshIds(a.inputs, InputsBase(a, base), OutputsBase(a, base))
    && FreshIds(a.outputs, OutputsBase(a, base), AllocationEnd(a, base) - 3)
    && a.types.outputPerVertexVariable == ToU32(AllocationEnd(a, base) - 2)
    && a.ids.mainFunction == ToU32(AllocationEnd(a, base) - 1)
    && a.ids.mainFunctionLabel == ToU32(AllocationEnd(a, base))
  }

  /** While the counter has not wrapped, no two pointers of an allocation share an id, and each is
    * above `TexturesBase`, so above every type and block id (the last of those is `TexturesBase`)
    * and below the last three. */
  lemma AllocatedPointersApart(a: Allocation, base: nat)
    requires AllocatedFrom(a, base) && AllocationEnd(a, base) < 0xFFFF_FFFF
    ensures forall k1, k2 :: k1 in a.textures && k2 in a.inputs ==> a.textures[k1] < a.inputs[k2]
    ensures forall k1, k2 :: k1 in a.inputs && k2 in a.outputs ==> a.inputs[k1] < a.outputs[k2]
    ensures forall k :: k in a.textures ==> TexturesBase(a, base) < a.textures[k]
    ensures forall k :: k in a.inputs ==> TexturesBase(a, base) < a.inputs[k]
    ensures forall k :: k in a.outputs ==> TexturesBase(a, base) < a.outputs[k] < a.types.outputPerVertexVariable
    ensures a.types.outputPerVertexVariable < a.ids.mainFunction < a.ids.mainFunctionLabel
  {
  }

  /** `ResourceIdsFrom` from its two stages: the blocks and their member pointer types take `t0` to
    * `t1`, the image types take `t1` to `t2`; no other type id changes. */
  lemma ResourceIdsStages(t0: TypeIds, t1: TypeIds, t2: TypeIds, blocks: map<u32, StructInfo>, hasTextures: bool, base: nat)
    requires BlockIdsFrom(blocks, base)
    requires var b := base + 3 * |blocks|;
      && (blocks != map[] ==> t1 == t0.(pushFloat4Pointer := ToU32(b + 1), pushMatrix44Pointer := ToU32(b + 2),
            uniformUintPointer := ToU32(b + 3)))
      && (blocks == map[] ==> t1 == t0)
    requires var m := base + 3 * |blocks| + (if blocks != map[] then 3 else 0);
      && (hasTextures ==> t2 == t1.(sampledImage2DType := ToU32(m + 1), sampledImageSamplerType := ToU32(m + 2),
            sampledImageSamplerPointer := ToU32(m + 3), storageImage2DType := ToU32(m + 4),
            storageImage2DPointer := ToU32(m + 5)))
      && (!hasTextures ==> t2 == t1)
    ensures ResourceIdsFrom(t2, blocks, hasTextures, base)
    ensures t2 == t0.(pushFloat4Pointer := t2.pushFloat4Pointer, pushMatrix44Pointer := t2.pushMatrix44Pointer,
      uniformUintPointer := t2.uniformUintPointer, sampledImage2DType := t2.sampledImage2DType,
      sampledImageSamplerType := t2.sampledImageSamplerType, sampledImageSamplerPointer := t2.sampledImageSamplerPointer,
      storageImage2DType := t2.storageImage2DType, storageImage2DPointer := t2.storageImage2DPointer)
  {
    hide ToU32, BlockIdsFrom;
  }

  /** `AllocatedFrom` from its three stages: the basic types and resources held in `t` after
    * `mid` ids, the texture pointers up to `mid`, and then the input and output pointers, the
    * per-vertex variable, the main function and its label. */
  lemma AllocatedFromStages(a: Allocation, base: nat, t: TypeIds, ids: MainIds, mid: nat)
    requires BasicTypeIdsFrom(t, ids, base) && ResourceIdsFrom(t, a.blocks, a.hasTextures, base + 17)
    requires mid == base + 17 + ResourceCount(a.blocks, a.hasTextures) + |a.textures|
    requires FreshIds(a.textures, base + 17 + ResourceCount(a.blocks, a.hasTextures), mid)
    requires FreshIds(a.inputs, mid, mid + |a.inputs|)
    requires FreshIds(a.outputs, mid + |a.inputs|, mid + |a.inputs| + |a.outputs|)
    requires a.types == t.(outputPerVertexVariable := ToU32(mid + |a.inputs| + |a.outputs| + 1))
    requires a.ids == ids.(mainFunction := ToU32(mid + |a.inputs| + |a.outputs| + 2),
      mainFunctionLabel := ToU32(mid + |a.inputs| + |a.outputs| + 3))
    ensures AllocatedFrom(a, base)
  {
    hide ToU32, BlockIdsFrom, FreshIds;
  }

  /** The blocks once the member loop of `DecorateUniformStructIds` has laid out their members. */
  function LaidOut(p: Program, a: Allocation): map<u32, StructInfo>
  {
    var m := MemberLayouts(p, a.blocks, |p.symbols|);
    if m.Ok? then m.value else a.blocks
  }

  /** The annotation passes succeed: every block member, and every texture (when there are
    * textures), input and output is decorated. */
  predicate AnnotationsOk(p: Program, stage: ShaderType, a: Allocation)
  {
    Collect(MemberDecorationStep(p, a.blocks), |p.symbols|).Ok? && InterfaceDecorated(p, stage, a)
  }

  /** Every texture (when there are textures), input and output is decorated. */
  predicate InterfaceDecorated(p: Program, stage: ShaderType, a: Allocation)
  {
    && (a.hasTextures ==> Collect(TextureDecorations(p, a.textures), |p.symbols|).Ok?)
    && Collect(InputDecorations(p, stage, a.inputs), |p.symbols|).Ok?
    && Collect(OutputDecorations(p, a.outputs), |p.symbols|).Ok?
  }

  /** `before`, then the per-vertex block's annotations, the members' decorations and the blocks'. */
  function WithBlockAnnotations(before: seq<Instruction>, p: Program, stage: ShaderType, a: Allocation): seq<Instruction>
  {
    before + PerVertexAnnotations(stage, a.ids.perVertexStructType)
      + Listed(Collect(MemberDecorationStep(p, a.blocks), |p.symbols|)) + BlockDecorationList(LaidOut(p, a))
  }

  /** `before`, then the textures' decorations (when there are textures), the inputs' and the
    * outputs', then the stride of the runtime uint array. */
  function WithInterfaceDecorations(before: seq<Instruction>, p: Program, stage: ShaderType, a: Allocation): seq<Instruction>
  {
    before + (if a.hasTextures then Listed(Collect(TextureDecorations(p, a.textures), |p.symbols|)) else [])
      + Listed(Collect(InputDecorations(p, stage, a.inputs), |p.symbols|))
      + Listed(Collect(OutputDecorations(p, a.outputs), |p.symbols|)) + [ArrayStride(a.types)]
  }

  /** `before`, then every annotation. */
  function WithAnnotations(before: seq<Instruction>, p: Program, stage: ShaderType, a: Allocation): seq<Instruction>
  {
    WithInterfaceDecorations(WithBlockAnnotations(before, p, stage, a), p, stage, a)
  }

  /** The variable passes succeed: every input, output and (when there are textures) texture
    * gets its variable. */
  predicate VariablesOk(p: Program, a: Allocation)
  {
    && Collect(InputVariables(p, a.types, a.inputs), |p.symbols|).Ok?
    && Collect(OutputVariables(p, a.types, a.outputs), |p.symbols|).Ok?
    && (a.hasTextures ==> Collect(TextureVariables(p, a.types, a.textures), |p.symbols|).Ok?)
  }

  /** `before`, then the basic types, the blocks' types and (when there are textures) the image
    * types. */
  function WithTypes(before: seq<Instruction>, p: Program, stage: ShaderType, a: Allocation): seq<Instruction>
  {
    before + BasicTypes(stage, a.types, a.ids) + UniformTypes(LaidOut(p, a), a.types)
      + (if a.hasTextures then ImageTypes(a.types) else [])
  }

  /** `before`, then the input and output variables, the per-vertex variable, the blocks'
    * variables and (when there are textures) the texture variables. */
  function WithVariables(before: seq<Instruction>, p: Program, stage: ShaderType, a: Allocation): seq<Instruction>
  {
    before + Listed(Collect(InputVariables(p, a.types, a.inputs), |p.symbols|))
      + Listed(Collect(OutputVariables(p, a.types, a.outputs), |p.symbols|))
      + PerVertexVariable(stage, a.types, a.ids) + BlockVariableList(LaidOut(p, a))
      + (if a.hasTextures then Listed(Collect(TextureVariables(p, a.types, a.textures), |p.symbols|)) else [])
  }

  /** The temporaries' constants are declared: every temporary is a four-lane constant whose
    * lanes all have a registered scalar constant in `c`, and each gets its composite constant
    * from those lanes. */
  predicate ConstantsOk(p: Program, a: Allocation, c: Constants)
  {
    && (forall i :: 0 <= i < |p.symbols| ==> ConstantTemporary(p.symbols[i]))
    && (forall i :: 0 <= i < |p.symbols| ==> LanesRegistered(p, p.symbols[i], c.floats, c.ints, c.uints))
    && Collect(TemporaryStep(p, a.types, c.floats, c.ints, c.uints, c.base), |p.symbols|).Ok?
  }

  /** `before`, then the float, int and uint constants in key order, then the temporaries'
    * composite constants. */
  function WithConstants(before: seq<Instruction>, p: Program, a: Allocation, c: Constants): seq<Instruction>
  {
    before + ConstantList(a.types.floatType, c.floats) + ConstantList(a.types.intType, c.ints)
      + ConstantList(a.types.uintType, c.uints)
      + Listed(Collect(TemporaryStep(p, a.types, c.floats, c.ints, c.uints, c.base), |p.symbols|))
  }

  /** Once the constants pass succeeds, every temporary's composite constant is built from the
    * ids of its lanes' registered scalar constants, in lane order (never from the placeholder
    * `IdOf` gives a missing lane). */
  lemma ConstantsOkUseLanes(p: Program, a: Allocation, c: Constants, i: nat)
    requires ConstantsOk(p, a, c) && i < |p.symbols| && p.symbols[i].location == Temporary
    ensures var r, s := TemporaryStep(p, a.types, c.floats, c.ints, c.uints, c.base)(i), p.symbols[i];
      var m, l := LaneMap(s.ty, c.floats, c.ints, c.uints), TemporaryLanes(p, s);
      && r.Ok? && |r.value| == 1 && r.value[0].opcode == OpConstantComposite
      && (forall k :: 0 <= k < 4 ==> l[k] in m)
      && r.value[0].operands[2..] == [m[l[0]], m[l[1]], m[l[2]], m[l[3]]]
  {
    TemporaryConstantLanes(p, a.types, c.floats, c.ints, c.uints, c.base, i);
  }

  /** `before`, then every declaration. */
  function WithDeclarations(before: seq<Instruction>, p: Program, stage: ShaderType, a: Allocation, c: Constants): seq<Instruction>
  {
    WithConstants(WithVariables(WithTypes(before, p, stage, a), p, stage, a), p, a, c)
  }

  /** Everything `Generate` writes before the main function: the preamble with the interface in
    * key order, the annotations, then the declarations. */
  function Declared(p: Program, stage: ShaderType, a: Allocation, c: Constants): seq<Instruction>
  {
    var preamble := Preamble(stage, HasInvocationInterlock(p), a.ids.mainFunction, ValuesByKey(a.inputs),
                             EntryOutputs(stage, a.types.outputPerVertexVariable, a.outputs));
    WithDeclarations(WithAnnotations(preamble, p, stage, a), p, stage, a, c)
  }

  /** Every statement of the program, lowered in order by `lower` from the bindings `temps` and
    * the id count `base`. */
  function LowerProgram(lower: Lowering, g: Tables, temps: map<u32, u32>, base: nat): Result<Lowered>
  {
    LowerWith(lower, g, temps, base, |g.p.statements|)
  }

  /** The temporaries' bindings and the id count the main function starts from. */
  function MainTemps(p: Program, c: Constants): map<u32, u32>
  {
    TemporaryBindings(p.symbols, map[], c.base, |p.symbols|)
  }

  function MainBase(p: Program, c: Constants): nat
  {
    c.base + TemporariesBefore(p.symbols, |p.symbols|)
  }

  class SpirvShaderGenerator {
    const program: Program
    const shaderType: ShaderType

    /** `m_outputStream`: the words written so far. */
    var stream: seq<Word>
    /** The instructions written after the five header words, and the layout section (see `Rank`)
      * of the last one. */
    ghost var instrs: seq<Instruction>
    ghost var lastRank: nat

    /** `m_nextId`, and the number of ids `AllocateId` has handed out (a count the model keeps
      * beside it: the statement lowering numbers its ids from it). */
    var nextId: u32
    var issued: nat

    /** The `m_...TypeId` and pointer type members. */
    var types: TypeIds
    var hasTextures: bool
    var inputPointerIds: map<u32, u32>
    var outputPointerIds: map<u32, u32>
    var temporaryValueIds: map<u32, u32>
    var texturePointerIds: map<u32, u32>
    /** Constant ids keyed by the constant's 32 bits (`m_floatConstantIds` holds float bits). */
    var intConstantIds: map<u32, u32>
    var uintConstantIds: map<u32, u32>
    var floatConstantIds: map<Float, u32>
    var structInfos: map<u32, StructInfo>
    /** The merge label of the open IF_BEGIN, 0 when none is open. */
    var endLabelId: u32

    /** The generator's invariant: the stream holds the header with a zero bound, then the
      * encoded instructions in layout order; and `m_nextId` is one more than the number of ids
      * handed out, modulo 2^32 (it starts at `EMPTY_ID + 1`). */
    ghost predicate Valid()
      reads this
    {
      Emitted() && Counting()
    }

    /** The counter part of `Valid`. */
    ghost predicate Counting()
      reads this`nextId, this`issued
    {
      nextId == ToU32(1 + issued)
    }

    /** The stream part of `Valid`. */
    ghost predicate Emitted()
      reads this`stream, this`instrs, this`lastRank
    {
      StreamLayout(stream, instrs, lastRank)
    }

    /** The counter has not wrapped: the ids handed out are 1, 2, ..., issued. */
    ghost predicate NoWrap()
      reads this`issued
    {
      issued < 0xFFFF_FFFF
    }

    /** The state of a generator that has not written anything. */
    ghost predicate Fresh()
      reads this
    {
      && stream == [] && instrs == [] && lastRank == 0
      && nextId == 1 && issued == 0
      && types == TypeIds() && !hasTextures
      && inputPointerIds == map[] && outputPointerIds == map[] && temporaryValueIds == map[]
      && texturePointerIds == map[] && intConstantIds == map[] && uintConstantIds == map[]
      && floatConstantIds == map[] && structInfos == map[] && endLabelId == 0
    }

    /** The generator holds the tables of allocation `a`. */
    ghost predicate Allocates(a: Allocation)
      reads this`types, this`hasTextures, this`inputPointerIds, this`outputPointerIds, this`texturePointerIds
    {
      && types == a.types && hasTextures == a.hasTextures && inputPointerIds == a.inputs
      && outputPointerIds == a.outputs && texturePointerIds == a.textures
    }

    /** The generator holds the constant tables of `c`. */
    ghost predicate Registers(c: Constants)
      reads this`floatConstantIds, this`intConstantIds, this`uintConstantIds
    {
      floatConstantIds == c.floats && intConstantIds == c.ints && uintConstantIds == c.uints
    }

    constructor(p: Program, t: ShaderType)
      ensures program == p && shaderType == t && Fresh()
    {
      program := p;
      shaderType := t;
      stream := [];
      instrs := [];
      lastRank := 0;
      nextId := 1;
      issued := 0;
      types := TypeIds();
      hasTextures := false;
      inputPointerIds := map[];
      outputPointerIds := map[];
      temporaryValueIds := map[];
      texturePointerIds := map[];
      intConstantIds := map[];
      uintConstantIds := map[];
      floatConstantIds := map[];
      structInfos := map[];
      endLabelId := 0;
    }

    /** `AllocateId`: the current counter value; the counter moves on, wrapping at 2^32. */
    method AllocateId() returns (id: u32)
      requires Counting()
      modifies this`nextId, this`issued
      ensures Counting()
      ensures issued == old(issued) + 1
      ensures id == old(nextId) && id == ToU32(issued) && id <= issued
      ensures NoWrap() ==> id == issued && 0 < id
    {
      id := nextId;
      ToU32Add(1 + issued, 1);
      nextId := ToU32(nextId + 1);
      issued := issued + 1;
    }

    /** Allocates the next id for key `k` of a map of freshly allocated ids. */
    method AddFreshId(ids: map<u32, u32>, k: u32, ghost lo: nat) returns (ids': map<u32, u32>)
      requires Counting() && k !in ids && lo <= issued
      requires ValuesAtMost(ids, issued) && FreshIds(ids, lo, issued)
      modifies this`nextId, this`issued
      ensures Counting() && issued == old(issued) + 1
      ensures ids' == ids[k := old(nextId)] && ids'.Keys == ids.Keys + {k} && |ids'| == |ids| + 1
      ensures ValuesAtMost(ids', issued) && FreshIds(ids', lo, issued)
    {
      ghost var before := issued;
      var id := AllocateId();
      FreshIdsAdd(ids, k, id, lo, before);
      ids' := ids[k := id];
    }

    /** `WriteOp`: the header word (word count and opcode) and the converted operands. */
    method WriteOp(op: Opcode, params: seq<Param>)
      requires Emitted() && lastRank <= Rank(op) && ValidParams(params)
      modifies this`stream, this`instrs, this`lastRank
      ensures Emitted()
      ensures instrs == old(instrs) + [Instruction(op, ConvertParams(params))]
      ensures lastRank == Rank(op)
    {
      var operands := ConvertParams(params);
      var instruction := Instruction(op, operands);
      StreamLayoutAppend(stream, instrs, lastRank, instruction);
      stream := stream + Encode(instruction);
      instrs := instrs + [instruction];
      lastRank := Rank(op);
    }

    /** `WriteOp` with operands that are ids, literal numbers or enumerants, one word each. */
    method Emit(op: Opcode, operands: seq<Word>)
      requires Emitted() && lastRank <= Rank(op)
      modifies this`stream, this`instrs, this`lastRank
      ensures Emitted()
      ensures instrs == old(instrs) + [Instruction(op, operands)]
      ensures lastRank == Rank(op)
    {
      NumsConvert(operands);
      WriteOp(op, Nums(operands));
    }

    /** `RegisterIntConstant`: a value gets an id the first time it is registered; registering it
      * again changes nothing. The map is keyed by the value's 32 bits. */
    method RegisterIntConstant(value: i32)
      requires Counting()
      modifies this`intConstantIds, this`nextId, this`issued
      ensures Counting() && ToU32(value) in intConstantIds
      ensures ToU32(value) in old(intConstantIds) ==> intConstantIds == old(intConstantIds) && issued == old(issued)
      ensures ToU32(value) !in old(intConstantIds) ==> intConstantIds == old(intConstantIds)[ToU32(value) := old(nextId)] && issued == old(issued) + 1
    {
      var key := ToU32(value);
      if key in intConstantIds {
        return;
      }
      var id := AllocateId();
      intConstantIds := intConstantIds[key := id];
    }

    /** `RegisterUintConstant`. */
    method RegisterUintConstant(value: u32)
      requires Counting()
      modifies this`uintConstantIds, this`nextId, this`issued
      ensures Counting() && value in uintConstantIds
      ensures value in old(uintConstantIds) ==> uintConstantIds == old(uintConstantIds) && issued == old(issued)
      ensures value !in old(uintConstantIds) ==> uintConstantIds == old(uintConstantIds)[value := old(nextId)] && issued == old(issued) + 1
    {
      if value in uintConstantIds {
        return;
      }
      var id := AllocateId();
      uintConstantIds := uintConstantIds[value := id];
    }

    /** `RegisterFloatConstant`, keyed by the float's bits. */
    method RegisterFloatConstant(value: Float)
      requires Counting()
      modifies this`floatConstantIds, this`nextId, this`issued
      ensures Counting() && value in floatConstantIds
      ensures value in old(floatConstantIds) ==> floatConstantIds == old(floatConstantIds) && issued == old(issued)
      ensures value !in old(floatConstantIds) ==> floatConstantIds == old(floatConstantIds)[value := old(nextId)] && issued == old(issued) + 1
    {
      if value in floatConstantIds {
        return;
      }
      var id := AllocateId();
      floatConstantIds := floatConstantIds[value := id];
    }
  
    // ----- constants of the temporaries -----

    /** The constant maps keep every entry they had in `floats`, `ints` and `uints`. */
    ghost predicate ConstantsGrow(floats: map<u32, u32>, ints: map<u32, u32>, uints: map<u32, u32>)
      reads this`floatConstantIds, this`intConstantIds, this`uintConstantIds
    {
      Grows(floats, floatConstantIds) && Grows(ints, intConstantIds) && Grows(uints, uintConstantIds)
    }

    /** The body of the `GatherConstantsFromTemps` loop for temporary `s`: each lane of its
      * constant is registered as a scalar constant of its type (an Int4 lane by its bits, a Uint4
      * lane converted to 32 unsigned bits); a temporary of any other type is a contract violation. */
    method GatherTemporary(s: Symbol) returns (r: Outcome)
      requires Counting() && s.location == Temporary
      modifies this`floatConstantIds, this`intConstantIds, this`uintConstantIds, this`nextId, this`issued
      ensures Counting() && issued >= old(issued)
      ensures ConstantsGrow(old(floatConstantIds), old(intConstantIds), old(uintConstantIds))
      ensures r.Pass? <==> ConstantTemporary(s)
      ensures LanesRegistered(program, s, floatConstantIds, intConstantIds, uintConstantIds)
    {
      r := Pass;
      if s.ty == Float4 {
        GatherFloat4(GetTemporaryValue(program, s).value);
      } else if s.ty == Int4 {
        GatherInt4(GetTemporaryValueInt(program, s).value);
      } else if s.ty == Uint4 {
        GatherUint4(GetTemporaryValueInt(program, s).value);
      } else {
        r := Fail(GatherConstantsFromTempsUnsupportedTemporaryType);
      }
    }

    /** The Float4 case: the four lanes' bits become float constants. */
    method GatherFloat4(v: Vec4<Float>)
      requires Counting()
      modifies this`floatConstantIds, this`nextId, this`issued
      ensures Counting() && issued >= old(issued) && Grows(old(floatConstantIds), floatConstantIds)
      ensures forall k :: 0 <= k < 4 ==> FloatLanes(v)[k] in floatConstantIds
    {
      RegisterFloatConstant(v.x);
      RegisterFloatConstant(v.y);
      RegisterFloatConstant(v.z);
      RegisterFloatConstant(v.w);
    }

    /** The Int4 case: the four lanes become int constants, keyed by their bits. */
    method GatherInt4(v: Vec4<i32>)
      requires Counting()
      modifies this`intConstantIds, this`nextId, this`issued
      ensures Counting() && issued >= old(issued) && Grows(old(intConstantIds), intConstantIds)
      ensures forall k :: 0 <= k < 4 ==> IntLanes(v)[k] in intConstantIds
    {
      RegisterIntConstant(v.x);
      RegisterIntConstant(v.y);
      RegisterIntConstant(v.z);
      RegisterIntConstant(v.w);
    }

    /** The Uint4 case: the four signed lanes are converted to unsigned constants. */
    method GatherUint4(v: Vec4<i32>)
      requires Counting()
      modifies this`uintConstantIds, this`nextId, this`issued
      ensures Counting() && issued >= old(issued) && Grows(old(uintConstantIds), uintConstantIds)
      ensures forall k :: 0 <= k < 4 ==> IntLanes(v)[k] in uintConstantIds
    {
      RegisterUintConstant(ToU32(v.x));
      RegisterUintConstant(ToU32(v.y));
      RegisterUintConstant(ToU32(v.z));
      RegisterUintConstant(ToU32(v.w));
    }

    /** `GatherConstantsFromTemps`: registers the lanes of every temporary's constant, so that
      * `DeclareTemporaryValueIds` finds an id for each of them. */
    method GatherConstantsFromTemps() returns (r: Outcome)
      requires Counting()
      modifies this`floatConstantIds, this`intConstantIds, this`uintConstantIds, this`nextId, this`issued
      ensures Counting() && issued >= old(issued)
      ensures ConstantsGrow(old(floatConstantIds), old(intConstantIds), old(uintConstantIds))
      ensures r.Pass? <==> forall i :: 0 <= i < |program.symbols| ==> ConstantTemporary(program.symbols[i])
      ensures r.Pass? ==> forall i :: 0 <= i < |program.symbols| ==>
        LanesRegistered(program, program.symbols[i], floatConstantIds, intConstantIds, uintConstantIds)
    {
      var syms := program.symbols;
      r := Pass;
      var i := 0;
      while i < |syms| && r.Pass?
        modifies this`floatConstantIds, this`intConstantIds, this`uintConstantIds, this`nextId, this`issued
        invariant 0 <= i <= |syms|
        invariant Counting() && issued >= old(issued)
        invariant ConstantsGrow(old(floatConstantIds), old(intConstantIds), old(uintConstantIds))
        invariant r.Pass? <==> forall j :: 0 <= j < i ==> ConstantTemporary(syms[j])
        invariant forall j :: 0 <= j < i ==> LanesRegistered(program, syms[j], floatConstantIds, intConstantIds, uintConstantIds)
      {
        if syms[i].location == Temporary {
          ghost var floats, ints, uints := floatConstantIds, intConstantIds, uintConstantIds;
          r := GatherTemporary(syms[i]);
          forall j | 0 <= j < i
            ensures LanesRegistered(program, syms[j], floatConstantIds, intConstantIds, uintConstantIds)
          {
            LanesRegisteredGrow(program, syms[j], floats, ints, uints, floatConstantIds, intConstantIds, uintConstantIds);
          }
        }
        i := i + 1;
      }
    }

    // ----- pointer ids -----

    /** One turn of the loop of `AllocatePointerIds`: symbol `i`, when of location `loc`, gets a
      * fresh id under its `key` field, unless that key already has one. */
    method AllocatePointerIdAt(loc: Location, key: KeyField, ids: map<u32, u32>, i: nat, ghost lo: nat)
      returns (ids': map<u32, u32>, r: Outcome)
      requires Counting() && i < |program.symbols| && lo <= issued
      requires KeyScan(program.symbols, loc, key, i) == Ok(ids.Keys)
      requires ValuesAtMost(ids, issued) && FreshIds(ids, lo, issued) && issued == lo + |ids|
      modifies this`nextId, this`issued
      ensures Counting() && issued >= old(issued)
      ensures r.Pass? ==> KeyScan(program.symbols, loc, key, i + 1) == Ok(ids'.Keys)
      ensures r.Fail? ==> KeyScan(program.symbols, loc, key, i + 1).Err?
      ensures ValuesAtMost(ids', issued) && FreshIds(ids', lo, issued) && issued == lo + |ids'|
    {
      var s := program.symbols[i];
      ids', r := ids, Pass;
      if s.location == loc {
        var k := KeyOf(s, key);
        if k in ids {
          r := Fail(AllocatePointerIdsKeyAllocatedTwice);
        } else {
          ids' := AddFreshId(ids, k, lo);
        }
      }
    }

    /** The loop of `AllocateInputPointerIds` and `AllocateTextureIds`: a fresh id for each symbol
      * of location `loc`, under its `key` field; a key met twice is a contract violation. */
    method AllocatePointerIds(loc: Location, key: KeyField) returns (ids: map<u32, u32>, r: Outcome)
      requires Counting()
      modifies this`nextId, this`issued
      ensures Counting() && issued >= old(issued)
      ensures r.Pass? <==> DistinctKeys(program.symbols, loc, key)
      ensures r.Pass? ==> ids.Keys == KeySet(program.symbols, loc, key)
      ensures ValuesAtMost(ids, issued) && FreshIds(ids, old(issued), issued) && issued == old(issued) + |ids|
    {
      hide FreshIds, ValuesAtMost, KeyScan, DistinctKeys, KeySet;
      ids, r := map[], Pass;
      var syms := program.symbols;
      var i := 0;
      assert ids.Keys == {};
      FreshIdsNone(issued);
      KeyScanNone(syms, loc, key);
      while i < |syms| && r.Pass?
        invariant 0 <= i <= |syms|
        invariant Counting() && issued >= old(issued)
        invariant r.Pass? ==> KeyScan(syms, loc, key, i) == Ok(ids.Keys)
        invariant r.Fail? ==> KeyScan(syms, loc, key, i).Err?
        invariant ValuesAtMost(ids, issued) && FreshIds(ids, old(issued), issued) && issued == old(issued) + |ids|
      {
        ids, r := AllocatePointerIdAt(loc, key, ids, i, old(issued));
        i := i + 1;
      }
      if r.Fail? {
        KeyScanFails(syms, loc, key, i, |syms|);
      }
      KeyScanMeaning(syms, loc, key, |syms|);
      assert syms[..|syms|] == syms;
    }

    /** `AllocateInputPointerIds`: a pointer id per input, keyed by input index. */
    method AllocateInputPointerIds() returns (r: Outcome)
      requires Counting()
      modifies this`inputPointerIds, this`nextId, this`issued
      ensures Counting() && issued >= old(issued)
      ensures r.Pass? <==> DistinctKeys(program.symbols, Input, ByIndex)
      ensures r.Pass? ==> inputPointerIds.Keys == KeySet(program.symbols, Input, ByIndex)
      ensures FreshIds(inputPointerIds, old(issued), issued) && issued == old(issued) + |inputPointerIds|
    {
      var ids;
      ids, r := AllocatePointerIds(Input, ByIndex);
      inputPointerIds := ids;
    }

    /** `AllocateTextureIds`, keyed by texture unit: a pointer id per texture or image unit. */
    method AllocateTextureIds() returns (r: Outcome)
      requires Counting()
      modifies this`texturePointerIds, this`nextId, this`issued
      ensures Counting() && issued >= old(issued)
      ensures r.Pass? <==> DistinctKeys(program.symbols, Texture, ByUnit)
      ensures r.Pass? ==> texturePointerIds.Keys == KeySet(program.symbols, Texture, ByUnit)
      ensures FreshIds(texturePointerIds, old(issued), issued) && issued == old(issued) + |texturePointerIds|
    {
      var ids;
      ids, r := AllocatePointerIds(Texture, ByUnit);
      texturePointerIds := ids;
    }

    /** `AllocateTextureIds` as written, keyed by symbol index: since the builder gives every
      * texture index 0xFFFFFFFF, a program with two textures is rejected (`TexturesShareIndex`). */
    method AllocateTextureIdsAsWritten() returns (r: Outcome)
      requires Counting()
      modifies this`texturePointerIds, this`nextId, this`issued
      ensures Counting() && issued >= old(issued)
      ensures r.Pass? <==> DistinctKeys(program.symbols, Texture, ByIndex)
      ensures WellFormed(program) && TwoTextures(program) ==> r.Fail?
    {
      var ids;
      ids, r := AllocatePointerIds(Texture, ByIndex);
      texturePointerIds := ids;
      if WellFormed(program) && TwoTextures(program) {
        TwoTexturesShareIndex(program);
      }
    }

    /** `AllocateOutputPointerIds`: a pointer id per output index, except for the position, which
      * is written through the per-vertex block. */
    method AllocateOutputPointerIds() returns (r: Outcome)
      requires Counting()
      modifies this`outputPointerIds, this`nextId, this`issued
      ensures Counting() && issued >= old(issued)
      ensures r.Pass? <==> OutputsAllocatable(program)
      ensures r.Pass? ==> outputPointerIds.Keys == PointerOutputKeys(program, |program.symbols|)
      ensures FreshIds(outputPointerIds, old(issued), issued) && issued == old(issued) + |outputPointerIds|
    {
      var ids;
      ids, r := OutputPointerIds();
      outputPointerIds := ids;
    }

    /** The loop of `AllocateOutputPointerIds`. */
    method OutputPointerIds() returns (ids: map<u32, u32>, r: Outcome)
      requires Counting()
      modifies this`nextId, this`issued
      ensures Counting() && issued >= old(issued)
      ensures r.Pass? <==> OutputsAllocatable(program)
      ensures r.Pass? ==> ids.Keys == PointerOutputKeys(program, |program.symbols|)
      ensures ValuesAtMost(ids, issued) && FreshIds(ids, old(issued), issued) && issued == old(issued) + |ids|
    {
      ids, r := map[], Pass;
      var syms := program.symbols;
      var i := 0;
      while i < |syms| && r.Pass?
        invariant 0 <= i <= |syms|
        invariant Counting() && issued >= old(issued)
        invariant r.Pass? ==> OutputScan(program, i).Ok? && OutputScan(program, i).value == ids.Keys
        invariant r.Fail? ==> OutputScan(program, i).Err?
        invariant ValuesAtMost(ids, issued) && FreshIds(ids, old(issued), issued) && issued == old(issued) + |ids|
      {
        var s := syms[i];
        if s.location == Output {
          var sem := GetOutputSemantic(program, s);
          if sem.Err? {
            r := Fail(sem.error);
          } else if sem.value.semantic == SystemPosition {
          } else if s.ty != Float4 {
            r := Fail(AllocateOutputPointerIdsOutputIsNotFloat4);
          } else if s.index in ids {
            r := Fail(AllocateOutputPointerIdsOutputIndexAllocatedTwice);
          } else {
            ids := AddFreshId(ids, s.index, old(issued));
          }
        }
        i := i + 1;
      }
      if r.Fail? {
        OutputScanFails(program, i, |syms|);
      }
      OutputScanMeaning(program, |syms|);
    }

    // ----- uniform blocks -----

    /** `AllocateUniformStructsIds`: a block per uniform unit holding the types of its members in
      * declaration order, then three ids per block (struct type, pointer type, variable) in unit
      * order. */
    method AllocateUniformStructsIds() returns (r: Outcome)
      requires Counting() && structInfos == map[]
      modifies this`structInfos, this`nextId, this`issued
      ensures Counting() && issued >= old(issued)
      ensures r.Pass? <==> BlockLayouts(program, types, |program.symbols|).Ok?
      ensures r.Pass? ==>
        var layout := BlockLayouts(program, types, |program.symbols|).value;
        && structInfos == AssignBlockIds(layout, Units(layout), old(issued), |layout.Keys|)
        && issued == old(issued) + 3 * |layout.Keys|
    {
      r := CollectBlockLayouts();
      if r.Pass? {
        AssignUniformBlockIds();
      }
    }

    /** The first loop of `AllocateUniformStructsIds`: the member types of each unit's block. */
    method CollectBlockLayouts() returns (r: Outcome)
      requires structInfos == map[]
      modifies this`structInfos
      ensures r.Pass? <==> BlockLayouts(program, types, |program.symbols|).Ok?
      ensures r.Pass? ==> structInfos == BlockLayouts(program, types, |program.symbols|).value
    {
      var syms := program.symbols;
      var infos: map<u32, StructInfo> := map[];
      r := Pass;
      var i := 0;
      while i < |syms| && r.Pass?
        invariant 0 <= i <= |syms|
        invariant r.Pass? ==> BlockLayouts(program, types, i).Ok? && BlockLayouts(program, types, i).value == infos
        invariant r.Fail? ==> BlockLayouts(program, types, i).Err?
      {
        var s := syms[i];
        if s.location == Uniform {
          var next := AppendComponent(types, InfoOf(infos, s.unit), s.ty);
          if next.Err? {
            r := Fail(next.error);
          } else {
            infos := infos[s.unit := next.value];
          }
        }
        i := i + 1;
      }
      if r.Fail? {
        BlockLayoutsFail(program, types, i, |syms|);
      }
      structInfos := infos;
    }

    /** The second loop of `AllocateUniformStructsIds`: three ids per block, in unit order. */
    method AssignUniformBlockIds()
      requires Counting()
      modifies this`structInfos, this`nextId, this`issued
      ensures Counting() && issued == old(issued) + 3 * |old(structInfos).Keys|
      ensures structInfos == AssignBlockIds(old(structInfos), Units(old(structInfos)), old(issued), |old(structInfos).Keys|)
    {
      ghost var base := issued;
      ghost var infos0 := structInfos;
      var infos := structInfos;
      var units := Units(infos);
      AscendingSpec(infos0.Keys);
      for k := 0 to |units|
        invariant Counting() && issued == base + 3 * k
        invariant infos == AssignBlockIds(infos0, units, base, k)
      {
        infos := AssignBlock(infos, units, k, infos0, base);
      }
      structInfos := infos;
    }

    /** One step of that loop: the k-th block in unit order gets the next three ids, its struct
      * type, pointer type and variable. */
    method AssignBlock(infos: map<u32, StructInfo>, units: seq<u32>, k: nat,
        ghost infos0: map<u32, StructInfo>, ghost base: nat) returns (infos': map<u32, StructInfo>)
      requires Counting() && issued == base + 3 * k
      requires k < |units| && units[k] in infos0 && infos == AssignBlockIds(infos0, units, base, k)
      modifies this`nextId, this`issued
      ensures Counting() && issued == old(issued) + 3
      ensures infos' == AssignBlockIds(infos0, units, base, k + 1)
    {
      var u := units[k];
      var typeId := AllocateId();
      var pointerTypeId := AllocateId();
      var variableId := AllocateId();
      AssignBlockIdsStep(infos0, units, base, k);
      infos' := infos[u := infos[u].(typeId := typeId, pointerTypeId := pointerTypeId, variableId := variableId)];
      assert infos'[u] == WithBlockIds(infos[u], base, k);
    }

    // ----- writing a pass -----

    /** The `WriteOp` calls of a pass, all of one layout section no earlier than the last one
      * written. */
    method WriteAll(ins: seq<Instruction>, rank: nat)
      requires Emitted() && lastRank <= rank && InSection(ins, rank)
      modifies this`stream, this`instrs, this`lastRank
      ensures Emitted() && lastRank == rank
      ensures instrs == old(instrs) + ins
    {
      StreamLayoutConcat(stream, instrs, lastRank, ins, rank);
      stream := stream + EncodeAll(ins);
      instrs := instrs + ins;
      lastRank := rank;
    }

    /** The loop of a `Decorate...` or `Declare...` pass: step i, for i from 0 to n - 1, writes
      * `f(i)`; a step that violates a contract stops the pass. */
    method WritePass(f: nat -> Result<seq<Instruction>>, n: nat, rank: nat) returns (r: Outcome)
      requires Emitted() && lastRank <= rank && StepsIn(f, n, rank)
      modifies this`stream, this`instrs, this`lastRank
      ensures Emitted() && lastRank <= rank
      ensures r.Pass? <==> Collect(f, n).Ok?
      ensures r.Pass? ==> instrs == old(instrs) + Collect(f, n).value
    {
      var out: seq<Instruction> := [];
      r := Pass;
      var i := 0;
      while i < n && r.Pass?
        modifies {}
        invariant 0 <= i <= n
        invariant r.Pass? ==> Collect(f, i) == Ok(out)
        invariant r.Fail? ==> Collect(f, i).Err?
      {
        var step := f(i);
        if step.Err? {
          r := Fail(step.error);
        } else {
          out := out + step.value;
        }
        i := i + 1;
      }
      if r.Fail? {
        CollectFails(f, i, n);
      } else {
        CollectInSection(f, n, rank);
        WriteAll(out, rank);
      }
    }

    // ----- decorations -----

    /** `DecorateInputPointerIds`: the built-in or location of each input's pointer. */
    method DecorateInputPointerIds() returns (r: Outcome)
      requires Emitted() && lastRank <= 8
      modifies this`stream, this`instrs, this`lastRank
      ensures Emitted() && lastRank <= 8
      ensures r.Pass? <==> Collect(InputDecorations(program, shaderType, inputPointerIds), |program.symbols|).Ok?
      ensures r.Pass? ==> instrs == old(instrs) + Collect(InputDecorations(program, shaderType, inputPointerIds), |program.symbols|).value
    {
      InputPassesInSection(program, shaderType, types, inputPointerIds);
      r := WritePass(InputDecorations(program, shaderType, inputPointerIds), |program.symbols|, 8);
    }

    /** `DecorateOutputPointerIds`: the location of each output's pointer. */
    method DecorateOutputPointerIds() returns (r: Outcome)
      requires Emitted() && lastRank <= 8
      modifies this`stream, this`instrs, this`lastRank
      ensures Emitted() && lastRank <= 8
      ensures r.Pass? <==> Collect(OutputDecorations(program, outputPointerIds), |program.symbols|).Ok?
      ensures r.Pass? ==> instrs == old(instrs) + Collect(OutputDecorations(program, outputPointerIds), |program.symbols|).value
    {
      OutputPassesInSection(program, types, outputPointerIds);
      r := WritePass(OutputDecorations(program, outputPointerIds), |program.symbols|, 8);
    }

    /** `DecorateTextureIds`: descriptor set and binding of each texture's pointer. */
    method DecorateTextureIds() returns (r: Outcome)
      requires Emitted() && lastRank <= 8
      modifies this`stream, this`instrs, this`lastRank
      ensures Emitted() && lastRank <= 8
      ensures r.Pass? <==> Collect(TextureDecorations(program, texturePointerIds), |program.symbols|).Ok?
      ensures r.Pass? ==> instrs == old(instrs) + Collect(TextureDecorations(program, texturePointerIds), |program.symbols|).value
    {
      TexturePassesInSection(program, types, texturePointerIds);
      r := WritePass(TextureDecorations(program, texturePointerIds), |program.symbols|, 8);
    }

    /** `DecorateUniformStructIds`: the members of the blocks, then the blocks themselves. */
    method DecorateUniformStructIds() returns (r: Outcome)
      requires Emitted() && lastRank <= 8 && Counting()
      requires CountersAtZero(structInfos) && MemberIndicesRegistered(structInfos, intConstantIds)
      modifies this`stream, this`instrs, this`lastRank, this`structInfos, this`intConstantIds, this`nextId, this`issued
      ensures Emitted() && lastRank <= 8 && Counting() && issued >= old(issued)
      ensures Grows(old(intConstantIds), intConstantIds)
      ensures r.Pass? <==> Collect(MemberDecorationStep(program, old(structInfos)), |program.symbols|).Ok?
      ensures r.Pass? ==> MemberLayouts(program, old(structInfos), |program.symbols|).Ok?
      ensures r.Pass? ==>
        && structInfos == MemberLayouts(program, old(structInfos), |program.symbols|).value
        && MemberIndicesRegistered(structInfos, intConstantIds)
        && instrs == old(instrs) + Collect(MemberDecorationStep(program, old(structInfos)), |program.symbols|).value
                                 + BlockDecorationList(structInfos)
    {
      var infos, members;
      infos, members, r := DecorateUniformMembers();
      if r.Pass? {
        MemberPassInSection(program, structInfos);
        CollectInSection(MemberDecorationStep(program, structInfos), |program.symbols|, 8);
        WriteAll(members, 8);
        structInfos := infos;
        BlockPassesInSection(structInfos, |Units(structInfos)|);
        OverUnitsCollect(structInfos, BlockDecorations, |Units(structInfos)|);
        r := WritePass(BlockDecorationSteps(structInfos), |Units(structInfos)|, 8);
      }
    }

    /** The first loop of `DecorateUniformStructIds`: each uniform takes the next member index of
      * its block, which is registered as an int constant, and gets its Offset (and, for a
      * matrix, ColMajor and MatrixStride) decorations at the offset its block has reached. */
    method DecorateUniformMembers() returns (infos: map<u32, StructInfo>, out: seq<Instruction>, r: Outcome)
      requires Counting() && CountersAtZero(structInfos) && MemberIndicesRegistered(structInfos, intConstantIds)
      modifies this`intConstantIds, this`nextId, this`issued
      ensures Counting() && issued >= old(issued) && Grows(old(intConstantIds), intConstantIds)
      ensures r.Pass? <==> Collect(MemberDecorationStep(program, structInfos), |program.symbols|).Ok?
      ensures r.Pass? ==>
        && MemberLayouts(program, structInfos, |program.symbols|) == Ok(infos)
        && Collect(MemberDecorationStep(program, structInfos), |program.symbols|) == Ok(out)
        && MemberIndicesRegistered(infos, intConstantIds)
    {
      var syms := program.symbols;
      ghost var step := MemberDecorationStep(program, structInfos);
      infos, out, r := structInfos, [], Pass;
      var i := 0;
      while i < |syms| && r.Pass?
        invariant 0 <= i <= |syms|
        invariant Counting() && issued >= old(issued) && Grows(old(intConstantIds), intConstantIds)
        invariant r.Pass? ==> MemberLayouts(program, structInfos, i) == Ok(infos) && Collect(step, i) == Ok(out)
        invariant r.Pass? ==> MemberIndicesRegistered(infos, intConstantIds)
        invariant r.Fail? ==> Collect(step, i).Err?
      {
        infos, out, r := DecorateUniformSymbol(i, infos, out);
        i := i + 1;
      }
      if r.Fail? {
        CollectFails(step, i, |syms|);
      }
    }

    /** One step of that loop: symbol `i` adds its decorations when it is a uniform. */
    method DecorateUniformSymbol(i: nat, infos: map<u32, StructInfo>, out: seq<Instruction>)
      returns (infos': map<u32, StructInfo>, out': seq<Instruction>, r: Outcome)
      requires i < |program.symbols| && Counting() && CountersAtZero(structInfos)
      requires MemberLayouts(program, structInfos, i) == Ok(infos)
      requires Collect(MemberDecorationStep(program, structInfos), i) == Ok(out)
      requires MemberIndicesRegistered(infos, intConstantIds)
      modifies this`intConstantIds, this`nextId, this`issued
      ensures Counting() && issued >= old(issued) && Grows(old(intConstantIds), intConstantIds)
      ensures r.Pass? ==>
        && MemberLayouts(program, structInfos, i + 1) == Ok(infos')
        && Collect(MemberDecorationStep(program, structInfos), i + 1) == Ok(out')
        && MemberIndicesRegistered(infos', intConstantIds)
      ensures r.Fail? ==> Collect(MemberDecorationStep(program, structInfos), i + 1).Err?
    {
      ghost var step := MemberDecorationStep(program, structInfos);
      var s := program.symbols[i];
      infos', out', r := infos, out, Pass;
      if s.location != Uniform {
        assert step(i) == Ok([]) && out + [] == out;
      } else if !IsMemberType(s.ty) {
        r := Fail(DecorateUniformStructIdsUnsupportedUniformType);
      } else {
        MemberLayoutsCount(program, structInfos, i, s.unit);
        MemberLayoutsKeep(program, structInfos, i, s.unit);
        var ins;
        infos', ins := DecorateMember(infos, s);
        out' := out + ins;
      }
    }

    /** One uniform of that loop: its decorations at its block's member index and offset, the
      * index recorded and registered as an int constant, the block's counters moved on. */
    method DecorateMember(infos: map<u32, StructInfo>, s: Symbol) returns (infos': map<u32, StructInfo>, ins: seq<Instruction>)
      requires Counting() && s.location == Uniform && IsMemberType(s.ty)
      requires MemberIndicesRegistered(infos, intConstantIds)
      modifies this`intConstantIds, this`nextId, this`issued
      ensures Counting() && issued >= old(issued) && Grows(old(intConstantIds), intConstantIds)
      ensures AddMember(infos, s) == Ok(infos') && MemberIndicesRegistered(infos', intConstantIds)
      ensures var info := InfoOf(infos, s.unit); ins == MemberDecorations(info.typeId, info.memberIndex, info.currentOffset, s.ty)
    {
      var info := InfoOf(infos, s.unit);
      ins := MemberDecorations(info.typeId, info.memberIndex, info.currentOffset, s.ty);
      RegisterIntConstant(ToI32(info.memberIndex));
      I32RoundTrip(info.memberIndex);
      infos' := AddMember(infos, s).value;
    }

    // ----- declarations -----

    /** `DeclareInputPointerIds`: the variable of each input, of the int3 pointer type for the
      * global invocation id and of the float4 pointer type otherwise. */
    method DeclareInputPointerIds() returns (r: Outcome)
      requires Emitted() && lastRank <= 9
      modifies this`stream, this`instrs, this`lastRank
      ensures Emitted() && lastRank <= 9
      ensures r.Pass? <==> Collect(InputVariables(program, types, inputPointerIds), |program.symbols|).Ok?
      ensures r.Pass? ==> instrs == old(instrs) + Collect(InputVariables(program, types, inputPointerIds), |program.symbols|).value
    {
      InputPassesInSection(program, shaderType, types, inputPointerIds);
      r := WritePass(InputVariables(program, types, inputPointerIds), |program.symbols|, 9);
    }

    /** `DeclareOutputPointerIds`: the variable of each output that has a pointer. */
    method DeclareOutputPointerIds() returns (r: Outcome)
      requires Emitted() && lastRank <= 9
      modifies this`stream, this`instrs, this`lastRank
      ensures Emitted() && lastRank <= 9
      ensures r.Pass? <==> Collect(OutputVariables(program, types, outputPointerIds), |program.symbols|).Ok?
      ensures r.Pass? ==> instrs == old(instrs) + Collect(OutputVariables(program, types, outputPointerIds), |program.symbols|).value
    {
      OutputPassesInSection(program, types, outputPointerIds);
      r := WritePass(OutputVariables(program, types, outputPointerIds), |program.symbols|, 9);
    }

    /** `DeclareTextureIds`: the variable of each texture or image. */
    method DeclareTextureIds() returns (r: Outcome)
      requires Emitted() && lastRank <= 9
      modifies this`stream, this`instrs, this`lastRank
      ensures Emitted() && lastRank <= 9
      ensures r.Pass? <==> Collect(TextureVariables(program, types, texturePointerIds), |program.symbols|).Ok?
      ensures r.Pass? ==> instrs == old(instrs) + Collect(TextureVariables(program, types, texturePointerIds), |program.symbols|).value
    {
      TexturePassesInSection(program, types, texturePointerIds);
      r := WritePass(TextureVariables(program, types, texturePointerIds), |program.symbols|, 9);
    }

    /** `DeclareUniformStructIds`: nothing without blocks; otherwise the struct and pointer types
      * of each block in unit order, then the pointer types to block members. */
    method DeclareUniformStructIds()
      requires Emitted() && lastRank <= 9
      modifies this`stream, this`instrs, this`lastRank
      ensures Emitted() && lastRank <= 9
      ensures instrs == old(instrs) + UniformTypes(structInfos, types)
    {
      if structInfos == map[] {
        NothingAppended(instrs);
        return;
      }
      DeclareBlockTypes();
      MemberPointerTypesInSection(types);
      WriteAll(MemberPointerTypes(types), 9);
    }

    /** The loop of `DeclareUniformStructIds` over the blocks, in unit order. */
    method DeclareBlockTypes()
      requires Emitted() && lastRank <= 9
      modifies this`stream, this`instrs, this`lastRank
      ensures Emitted() && lastRank <= 9
      ensures instrs == old(instrs) + BlockTypeList(structInfos)
    {
      BlockPassesInSection(structInfos, |Units(structInfos)|);
      OverUnitsCollect(structInfos, BlockTypes, |Units(structInfos)|);
      var r := WritePass(OverUnits(structInfos, BlockTypes), |Units(structInfos)|, 9);
    }

    /** The loop of `Generate` that declares the variable of each block, in unit order. */
    method DeclareBlockVariables()
      requires Emitted() && lastRank <= 9
      modifies this`stream, this`instrs, this`lastRank
      ensures Emitted() && lastRank <= 9
      ensures instrs == old(instrs) + BlockVariableList(structInfos)
    {
      BlockPassesInSection(structInfos, |Units(structInfos)|);
      OverUnitsCollect(structInfos, BlockVariable, |Units(structInfos)|);
      var r := WritePass(OverUnits(structInfos, BlockVariable), |Units(structInfos)|, 9);
    }

    /** The loops of `Generate` that declare the registered constants of one type, in key order. */
    method DeclareConstants(typeId: u32, m: map<u32, u32>)
      requires Emitted() && lastRank <= 9
      modifies this`stream, this`instrs, this`lastRank
      ensures Emitted() && lastRank <= 9
      ensures instrs == old(instrs) + ConstantList(typeId, m)
    {
      ConstantPassInSection(typeId, m, |m.Keys|);
      ConstantDeclarations(typeId, m);
      var r := WritePass(ConstantSteps(typeId, m), |m.Keys|, 9);
    }

    /** `DeclareTemporaryValueIds`: a fresh id and a composite constant for each temporary, and
      * the temporary's index bound to that id. */
    method DeclareTemporaryValueIds() returns (r: Outcome)
      requires Emitted() && lastRank <= 9 && Counting()
      modifies this`stream, this`instrs, this`lastRank, this`temporaryValueIds, this`nextId, this`issued
      ensures Emitted() && lastRank <= 9 && Counting()
      ensures var f := TemporaryStep(program, types, floatConstantIds, intConstantIds, uintConstantIds, old(issued));
        && (r.Pass? <==> Collect(f, |program.symbols|).Ok?)
        && (r.Pass? ==> instrs == old(instrs) + Collect(f, |program.symbols|).value)
      ensures r.Pass? ==> issued == old(issued) + TemporariesBefore(program.symbols, |program.symbols|)
      ensures r.Pass? ==> temporaryValueIds == TemporaryBindings(program.symbols, old(temporaryValueIds), old(issued), |program.symbols|)
    {
      var out, bindings;
      out, bindings, r := TemporaryConstants();
      if r.Pass? {
        TemporaryPassInSection(program, types, floatConstantIds, intConstantIds, uintConstantIds, old(issued));
        CollectInSection(TemporaryStep(program, types, floatConstantIds, intConstantIds, uintConstantIds, old(issued)), |program.symbols|, 9);
        WriteAll(out, 9);
        temporaryValueIds := bindings;
      }
    }

    /** The loop of `DeclareTemporaryValueIds`, which allocates the ids and builds the constants
      * and bindings; the caller writes them. */
    method TemporaryConstants() returns (out: seq<Instruction>, bindings: map<u32, u32>, r: Outcome)
      requires Counting()
      modifies this`nextId, this`issued
      ensures Counting()
      ensures var f := TemporaryStep(program, types, floatConstantIds, intConstantIds, uintConstantIds, old(issued));
        && (r.Pass? <==> Collect(f, |program.symbols|).Ok?)
        && (r.Pass? ==> Collect(f, |program.symbols|) == Ok(out))
      ensures r.Pass? ==> issued == old(issued) + TemporariesBefore(program.symbols, |program.symbols|)
      ensures r.Pass? ==> bindings == TemporaryBindings(program.symbols, temporaryValueIds, old(issued), |program.symbols|)
    {
      var syms := program.symbols;
      ghost var base := issued;
      var f := TemporaryStep(program, types, floatConstantIds, intConstantIds, uintConstantIds, base);
      out, bindings, r := [], temporaryValueIds, Pass;
      var i := 0;
      while i < |syms| && r.Pass?
        invariant 0 <= i <= |syms|
        invariant Counting() && issued == base + TemporariesBefore(syms, i)
        invariant r.Pass? ==> Collect(f, i) == Ok(out) && bindings == TemporaryBindings(syms, temporaryValueIds, base, i)
        invariant r.Fail? ==> Collect(f, i).Err?
      {
        out, bindings, r := TemporaryConstantAt(i, base, out, bindings);
        i := i + 1;
      }
      if r.Fail? {
        CollectFails(f, i, |syms|);
      }
    }

    /** One step of that loop: a temporary takes the next id, which its constant and its binding
      * use; any other symbol adds nothing. */
    method TemporaryConstantAt(i: nat, ghost base: nat, out: seq<Instruction>, bindings: map<u32, u32>)
      returns (out': seq<Instruction>, bindings': map<u32, u32>, r: Outcome)
      requires i < |program.symbols| && Counting() && issued == base + TemporariesBefore(program.symbols, i)
      requires Collect(TemporaryStep(program, types, floatConstantIds, intConstantIds, uintConstantIds, base), i) == Ok(out)
      requires bindings == TemporaryBindings(program.symbols, temporaryValueIds, base, i)
      modifies this`nextId, this`issued
      ensures Counting() && issued == base + TemporariesBefore(program.symbols, i + 1)
      ensures var f := TemporaryStep(program, types, floatConstantIds, intConstantIds, uintConstantIds, base);
        && (r.Pass? ==> Collect(f, i + 1) == Ok(out') && bindings' == TemporaryBindings(program.symbols, temporaryValueIds, base, i + 1))
        && (r.Fail? ==> Collect(f, i + 1).Err?)
    {
      var syms := program.symbols;
      var s := syms[i];
      ghost var f := TemporaryStep(program, types, floatConstantIds, intConstantIds, uintConstantIds, base);
      TemporaryStepAt(program, types, floatConstantIds, intConstantIds, uintConstantIds, base, i);
      CollectNext(f, i, out);
      out', bindings', r := out, bindings, Pass;
      if s.location == Temporary {
        var id := AllocateId();
        assert id == TemporaryId(syms, base, i);
        var next := TemporaryConstant(program, types, floatConstantIds, intConstantIds, uintConstantIds, s, id);
        if next.Err? {
          r := Fail(next.error);
        } else {
          out' := out + next.value;
          bindings' := bindings[s.index := id];
        }
      } else {
        NothingAppended(out);
      }
    }

    // ----- the main function -----

    /** What the statements of the main function read and never change. */
    function View(): Tables
      reads this`types, this`hasTextures, this`inputPointerIds, this`outputPointerIds
      reads this`texturePointerIds, this`intConstantIds, this`uintConstantIds, this`structInfos
    {
      Tables(program, shaderType, types, hasTextures, inputPointerIds, outputPointerIds,
        texturePointerIds, intConstantIds, uintConstantIds, structInfos)
    }

    /** Writes the instructions one statement lowered to and takes over the bindings, pending
      * end label and id count it left. */
    method WriteLowered(l: Lowered)
      requires Counting()
      modifies this`stream, this`instrs, this`nextId, this`issued, this`temporaryValueIds, this`endLabelId
      ensures Counting()
      ensures stream == old(stream) + EncodeAll(l.ins) && instrs == old(instrs) + l.ins
      ensures temporaryValueIds == l.temps && endLabelId == l.endLabel && issued == old(issued) + l.used
    {
      stream := stream + EncodeAll(l.ins);
      instrs := instrs + l.ins;
      temporaryValueIds, endLabelId := l.temps, l.endLabel;
      ToU32Add(1 + issued, l.used);
      issued := issued + l.used;
      nextId := ToU32(nextId + l.used);
    }

    /** The statement loop of `Generate`: the statements are lowered in order, each from the
      * bindings, pending end label and id count the previous ones left, and their instructions
      * are written to the main function. The loop is proved for any statement lowering `lower`;
      * `Generate` passes its statement switch, `Lower`. */
    method WriteMain(lower: Lowering) returns (r: Outcome)
      requires Counting() && endLabelId == 0
      modifies this`stream, this`instrs, this`nextId, this`issued, this`temporaryValueIds, this`endLabelId
      ensures Counting() && issued >= old(issued)
      ensures r.Pass? <==> LowerWith(lower, old(View()), old(temporaryValueIds), old(issued), |program.statements|).Ok?
      ensures r.Pass? ==>
        var body := LowerWith(lower, old(View()), old(temporaryValueIds), old(issued), |program.statements|).value;
        && stream == old(stream) + EncodeAll(body.ins) && instrs == old(instrs) + body.ins
        && temporaryValueIds == body.temps && endLabelId == body.endLabel && issued == old(issued) + body.used
    {
      var lowered := LowerStatements(lower);
      if lowered.Err? {
        r := Fail(lowered.error);
      } else {
        r := Pass;
        WriteLowered(lowered.value);
      }
    }

    /** The loop over the statements: each is lowered with the temporaries and end label left by
      * the ones before it, stopping at the first failure. Nothing is written. */
    method LowerStatements(lower: Lowering) returns (lowered: Result<Lowered>)
      requires Counting()
      ensures lowered == LowerWith(lower, View(), temporaryValueIds, issued, |program.statements|)
    {
      var g := View();
      var done := Lowered([], temporaryValueIds, 0, 0);
      var failed := false;
      var error := "";
      var i := 0;
      while i < |program.statements| && !failed
        invariant 0 <= i <= |program.statements|
        invariant !failed ==> LowerWith(lower, g, temporaryValueIds, issued, i) == Ok(done)
        invariant failed ==> LowerWith(lower, g, temporaryValueIds, issued, i) == Err(error)
      {
        var next := lower(g, done.temps, done.endLabel, program.statements[i], issued + done.used);
        LowerWithStep(lower, g, temporaryValueIds, issued, i + 1, done, next);
        if next.Err? {
          failed, error := true, next.error;
        } else {
          done := Then(done, next).value;
        }
        i := i + 1;
      }
      if failed {
        LowerWithFails(lower, g, temporaryValueIds, issued, i, |program.statements|);
        lowered := Err(error);
      } else {
        lowered := Ok(done);
      }
    }
      // ----- Generate -----

    /** The five header words of the module (section 2.3 of the Khronos SPIR-V Specification):
      * magic number, version 1.3, generator 0, bound (0 until patched), schema 0. */
    method WriteHeader()
      modifies this`stream, this`instrs, this`lastRank
      ensures Emitted() && instrs == [] && lastRank == 0
      ensures stream == [MagicNumber, Version13, 0, 0, 0]
    {
      stream := [MagicNumber, Version13, 0, 0, 0];
      instrs := [];
      lastRank := 0;
    }

    /** The first seventeen `AllocateId` calls of `Generate`: the basic types, pointer types and the
      * per-vertex block, in that order. */
    method AllocateTypeIds() returns (voidType: u32, mainFunctionType: u32, perVertexStructType: u32, outputPerVertexStructPointer: u32)
      requires Counting()
      modifies this`types, this`nextId, this`issued
      ensures Counting() && issued == old(issued) + 17
      ensures voidType == ToU32(old(issued) + 1) && mainFunctionType == ToU32(old(issued) + 2)
      ensures perVertexStructType == ToU32(old(issued) + 13) && outputPerVertexStructPointer == ToU32(old(issued) + 17)
      ensures types == old(types).(boolType := ToU32(old(issued) + 3), floatType := ToU32(old(issued) + 4),
        float4Type := ToU32(old(issued) + 5), uintType := ToU32(old(issued) + 6), uint4Type := ToU32(old(issued) + 7),
        matrix44Type := ToU32(old(issued) + 8), uintArrayType := ToU32(old(issued) + 9),
        intType := ToU32(old(issued) + 10), int3Type := ToU32(old(issued) + 11), int4Type := ToU32(old(issued) + 12),
        inputFloat4Pointer := ToU32(old(issued) + 14), inputInt3Pointer := ToU32(old(issued) + 15),
        outputFloat4Pointer := ToU32(old(issued) + 16))
    {
      voidType, mainFunctionType := AllocateFloatTypeIds();
      AllocateUintTypeIds();
      AllocateIntTypeIds();
      perVertexStructType, outputPerVertexStructPointer := AllocateInterfaceTypeIds();
    }

    /** Ids 1 to 5 of `Generate`: void, the main function type, bool, float and float4. */
    method AllocateFloatTypeIds() returns (voidType: u32, mainFunctionType: u32)
      requires Counting()
      modifies this`types, this`nextId, this`issued
      ensures Counting() && issued == old(issued) + 5
      ensures voidType == ToU32(old(issued) + 1) && mainFunctionType == ToU32(old(issued) + 2)
      ensures types == old(types).(boolType := ToU32(old(issued) + 3), floatType := ToU32(old(issued) + 4),
        float4Type := ToU32(old(issued) + 5))
    {
      voidType := AllocateId();
      mainFunctionType := AllocateId();
      var boolType := AllocateId();
      var floatType := AllocateId();
      var float4Type := AllocateId();
      types := types.(boolType := boolType, floatType := floatType, float4Type := float4Type);
    }

    /** Ids 6 to 9: uint, uint4, the 4x4 matrix and the runtime uint array. */
    method AllocateUintTypeIds()
      requires Counting()
      modifies this`types, this`nextId, this`issued
      ensures Counting() && issued == old(issued) + 4
      ensures types == old(types).(uintType := ToU32(old(issued) + 1), uint4Type := ToU32(old(issued) + 2),
        matrix44Type := ToU32(old(issued) + 3), uintArrayType := ToU32(old(issued) + 4))
    {
      var uintType := AllocateId();
      var uint4Type := AllocateId();
      var matrix44Type := AllocateId();
      var uintArrayType := AllocateId();
      types := types.(uintType := uintType, uint4Type := uint4Type, matrix44Type := matrix44Type, uintArrayType := uintArrayType);
    }

    /** Ids 10 to 12: int, int3 and int4. */
    method AllocateIntTypeIds()
      requires Counting()
      modifies this`types, this`nextId, this`issued
      ensures Counting() && issued == old(issued) + 3
      ensures types == old(types).(intType := ToU32(old(issued) + 1), int3Type := ToU32(old(issued) + 2),
        int4Type := ToU32(old(issued) + 3))
    {
      var intType := AllocateId();
      var int3Type := AllocateId();
      var int4Type := AllocateId();
      types := types.(intType := intType, int3Type := int3Type, int4Type := int4Type);
    }

    /** Ids 13 to 17: the per-vertex block, the input and output pointer types and the pointer to
      * the per-vertex block. */
    method AllocateInterfaceTypeIds() returns (perVertexStructType: u32, outputPerVertexStructPointer: u32)
      requires Counting()
      modifies this`types, this`nextId, this`issued
      ensures Counting() && issued == old(issued) + 5
      ensures perVertexStructType == ToU32(old(issued) + 1) && outputPerVertexStructPointer == ToU32(old(issued) + 5)
      ensures types == old(types).(inputFloat4Pointer := ToU32(old(issued) + 2), inputInt3Pointer := ToU32(old(issued) + 3),
        outputFloat4Pointer := ToU32(old(issued) + 4))
    {
      perVertexStructType := AllocateId();
      var inputFloat4Pointer := AllocateId();
      var inputInt3Pointer := AllocateId();
      var outputFloat4Pointer := AllocateId();
      outputPerVertexStructPointer := AllocateId();
      types := types.(inputFloat4Pointer := inputFloat4Pointer, inputInt3Pointer := inputInt3Pointer,
        outputFloat4Pointer := outputFloat4Pointer);
    }

    /** The pointer types to block members, allocated when there is a block. */
    method AllocateMemberPointerTypeIds()
      requires Counting()
      modifies this`types, this`nextId, this`issued
      ensures Counting() && issued == old(issued) + 3
      ensures types == old(types).(pushFloat4Pointer := ToU32(old(issued) + 1),
        pushMatrix44Pointer := ToU32(old(issued) + 2), uniformUintPointer := ToU32(old(issued) + 3))
    {
      var pushFloat4Pointer := AllocateId();
      var pushMatrix44Pointer := AllocateId();
      var uniformUintPointer := AllocateId();
      types := types.(pushFloat4Pointer := pushFloat4Pointer, pushMatrix44Pointer := pushMatrix44Pointer,
        uniformUintPointer := uniformUintPointer);
    }

    /** The sampled and storage image types, allocated when there is a texture. */
    method AllocateImageTypeIds()
      requires Counting()
      modifies this`types, this`nextId, this`issued
      ensures Counting() && issued == old(issued) + 5
      ensures types == old(types).(sampledImage2DType := ToU32(old(issued) + 1),
        sampledImageSamplerType := ToU32(old(issued) + 2), sampledImageSamplerPointer := ToU32(old(issued) + 3),
        storageImage2DType := ToU32(old(issued) + 4), storageImage2DPointer := ToU32(old(issued) + 5))
    {
      var sampledImage2DType := AllocateId();
      var sampledImageSamplerType := AllocateId();
      var sampledImageSamplerPointer := AllocateId();
      var storageImage2DType := AllocateId();
      var storageImage2DPointer := AllocateId();
      types := types.(sampledImage2DType := sampledImage2DType, sampledImageSamplerType := sampledImageSamplerType,
        sampledImageSamplerPointer := sampledImageSamplerPointer, storageImage2DType := storageImage2DType,
        storageImage2DPointer := storageImage2DPointer);
    }

    /** The allocation part of `Generate`: the type ids, the uniform blocks and their member
      * pointer types, the image types and texture pointers when there are textures, the input
      * and output pointers, the per-vertex variable, the main function and its label. */
    method AllocateAll() returns (r: Outcome, ids: MainIds)
      requires Counting() && structInfos == map[] && texturePointerIds == map[] && hasTextures == HasTextures(program)
      modifies this`types, this`structInfos, this`texturePointerIds, this`inputPointerIds, this`outputPointerIds
      modifies this`nextId, this`issued
      ensures Counting()
      ensures r.Pass? <==> AllocationOk(program)
      ensures r.Pass? ==> Keyed(program, Allocation(types, ids, hasTextures, inputPointerIds, outputPointerIds, texturePointerIds, structInfos))
      ensures r.Pass? ==> CountersAtZero(structInfos) && NoMemberIndices(structInfos)
      ensures r.Pass? ==> ids.mainFunction == ToU32(issued - 1) && ids.mainFunctionLabel == ToU32(issued)
      ensures r.Pass? ==>
        AllocatedFrom(Allocation(types, ids, hasTextures, inputPointerIds, outputPointerIds, texturePointerIds, structInfos), old(issued))
    {
      hide FreshIds, BlockIdsFrom, ResourceIdsFrom, AllocatedFrom, ToU32, KeySet, PointerOutputKeys, DistinctKeys,
        OutputsAllocatable, UniformsAreMembers, CountersAtZero, NoMemberIndices;
      ghost var base := issued;
      var voidType, mainFunctionType, perVertexStructType, outputPerVertexStructPointer := AllocateTypeIds();
      ids := MainIds(voidType, mainFunctionType, perVertexStructType, outputPerVertexStructPointer, 0, 0);
      r := AllocateResourceIds();
      if r.Fail? {
        return;
      }
      ghost var t, mid, basic := types, issued, ids;
      assert BasicTypeIdsFrom(t, ids, base);
      var mainFunction, mainFunctionLabel;
      r, mainFunction, mainFunctionLabel := AllocateInterfaceIds();
      ids := ids.(mainFunction := mainFunction, mainFunctionLabel := mainFunctionLabel);
      if r.Pass? {
        AllocatedFromStages(Allocation(types, ids, hasTextures, inputPointerIds, outputPointerIds, texturePointerIds, structInfos),
          base, t, basic, mid);
      }
    }

    /** The uniform blocks, then (when there is a block) the member pointer types, then (when there is
      * a texture) the image types and the texture pointers. */
    method AllocateResourceIds() returns (r: Outcome)
      requires Counting() && structInfos == map[] && texturePointerIds == map[]
      modifies this`types, this`structInfos, this`texturePointerIds, this`nextId, this`issued
      ensures Counting()
      ensures r.Pass? <==> UniformsAreMembers(program) && (hasTextures ==> DistinctKeys(program.symbols, Texture, ByUnit))
      ensures r.Pass? && hasTextures ==> texturePointerIds.Keys == KeySet(program.symbols, Texture, ByUnit)
      ensures r.Pass? ==> CountersAtZero(structInfos) && NoMemberIndices(structInfos)
      ensures r.Pass? ==> ResourceIdsFrom(types, structInfos, hasTextures, old(issued))
      ensures r.Pass? ==>
        var t := old(issued) + ResourceCount(structInfos, hasTextures);
        FreshIds(texturePointerIds, t, issued) && issued == t + |texturePointerIds|
      ensures !hasTextures ==> texturePointerIds == map[]
      ensures types == old(types).(pushFloat4Pointer := types.pushFloat4Pointer, pushMatrix44Pointer := types.pushMatrix44Pointer,
        uniformUintPointer := types.uniformUintPointer, sampledImage2DType := types.sampledImage2DType,
        sampledImageSamplerType := types.sampledImageSamplerType, sampledImageSamplerPointer := types.sampledImageSamplerPointer,
        storageImage2DType := types.storageImage2DType, storageImage2DPointer := types.storageImage2DPointer)
    {
      hide FreshIds, BlockIdsFrom, KeySet, DistinctKeys, UniformsAreMembers, CountersAtZero, NoMemberIndices, ToU32,
        ResourceIdsFrom;
      ghost var t0 := types;
      r := AllocateBlockIds();
      if r.Fail? {
        return;
      }
      ghost var t1 := types;
      if hasTextures {
        r := AllocateTextureResourceIds();
      } else {
        FreshIdsNone(issued);
      }
      ResourceIdsStages(t0, t1, types, structInfos, hasTextures, old(issued));
    }

    /** The uniform blocks, three ids each in unit order, then the member pointer types when there
      * is a block. */
    method AllocateBlockIds() returns (r: Outcome)
      requires Counting() && structInfos == map[]
      modifies this`types, this`structInfos, this`nextId, this`issued
      ensures Counting()
      ensures r.Pass? <==> UniformsAreMembers(program)
      ensures r.Pass? ==> CountersAtZero(structInfos) && NoMemberIndices(structInfos)
      ensures r.Pass? ==> BlockIdsFrom(structInfos, old(issued))
      ensures r.Pass? ==>
        var b := old(issued) + 3 * |structInfos|;
        && issued == b + (if structInfos != map[] then 3 else 0)
        && (structInfos != map[] ==> types == old(types).(pushFloat4Pointer := ToU32(b + 1),
              pushMatrix44Pointer := ToU32(b + 2), uniformUintPointer := ToU32(b + 3)))
        && (structInfos == map[] ==> types == old(types))
      ensures r.Fail? ==> types == old(types)
    {
      hide BlockIdsFrom, AssignBlockIds, Units, BlockLayouts;
      ghost var base := issued;
      r := AllocateUniformStructsIds();
      BlockLayoutsOk(program, types, |program.symbols|);
      if r.Fail? {
        return;
      }
      AllocatedBlocksUnstarted(program, types, base);
      AssignedBlockIdsFrom(BlockLayouts(program, types, |program.symbols|).value, base);
      if structInfos != map[] {
        AllocateMemberPointerTypeIds();
      }
    }

    /** The image types, then one fresh texture pointer per texture unit. */
    method AllocateTextureResourceIds() returns (r: Outcome)
      requires Counting()
      modifies this`types, this`texturePointerIds, this`nextId, this`issued
      ensures Counting()
      ensures r.Pass? <==> DistinctKeys(program.symbols, Texture, ByUnit)
      ensures r.Pass? ==> texturePointerIds.Keys == KeySet(program.symbols, Texture, ByUnit)
      ensures types == old(types).(sampledImage2DType := ToU32(old(issued) + 1),
        sampledImageSamplerType := ToU32(old(issued) + 2), sampledImageSamplerPointer := ToU32(old(issued) + 3),
        storageImage2DType := ToU32(old(issued) + 4), storageImage2DPointer := ToU32(old(issued) + 5))
      ensures FreshIds(texturePointerIds, old(issued) + 5, issued) && issued == old(issued) + 5 + |texturePointerIds|
    {
      AllocateImageTypeIds();
      r := AllocateTextureIds();
    }

    /** The input and output pointers, the per-vertex variable, and the main function and its label,
      * which are the last two ids `Generate` allocates. */
    method AllocateInterfaceIds() returns (r: Outcome, mainFunction: u32, mainFunctionLabel: u32)
      requires Counting()
      modifies this`types, this`inputPointerIds, this`outputPointerIds, this`nextId, this`issued
      ensures Counting()
      ensures r.Pass? <==> DistinctKeys(program.symbols, Input, ByIndex) && OutputsAllocatable(program)
      ensures r.Pass? ==> inputPointerIds.Keys == KeySet(program.symbols, Input, ByIndex)
      ensures r.Pass? ==> outputPointerIds.Keys == PointerOutputKeys(program, |program.symbols|)
      ensures r.Pass? ==> mainFunction == ToU32(issued - 1) && mainFunctionLabel == ToU32(issued)
      ensures r.Pass? ==>
        && FreshIds(inputPointerIds, old(issued), old(issued) + |inputPointerIds|)
        && FreshIds(outputPointerIds, old(issued) + |inputPointerIds|, old(issued) + |inputPointerIds| + |outputPointerIds|)
        && issued == old(issued) + |inputPointerIds| + |outputPointerIds| + 3
        && types == old(types).(outputPerVertexVariable := ToU32(issued - 2))
      ensures r.Fail? ==> types == old(types)
    {
      hide FreshIds, KeySet, DistinctKeys, OutputsAllocatable, PointerOutputKeys;
      mainFunction, mainFunctionLabel := 0, 0;
      r := AllocateInputPointerIds();
      if r.Fail? {
        return;
      }
      r := AllocateOutputPointerIds();
      if r.Fail? {
        return;
      }
      var perVertexVariable := AllocateId();
      types := types.(outputPerVertexVariable := perVertexVariable);
      mainFunction := AllocateId();
      mainFunctionLabel := AllocateId();
    }

    // ----- the sections of the module -----

    /** The stream holds the header with a zero bound, then the encoded instructions (the
      * `Emitted` invariant without the layout order, which the model does not track through
      * the main function). */
    ghost predicate Encoded()
      reads this`stream, this`instrs
    {
      |stream| >= 5 && stream[..5] == [MagicNumber, Version13, 0, 0, 0] && stream[5..] == EncodeAll(instrs)
    }

    /** Capabilities, the interlock extension and the memory model. */
    method WriteCapabilities(interlock: bool)
      requires Emitted() && lastRank <= 1
      modifies this`stream, this`instrs, this`lastRank
      ensures Emitted() && lastRank == 4
      ensures instrs == old(instrs) + Capabilities(interlock)
    {
      CapabilitiesInSections(interlock);
      WriteAll(CapabilityList(interlock), 1);
      if interlock {
        WriteInterlockExtension();
      } else {
        NothingAppended(instrs);
      }
      WriteAll([MemoryModel], 4);
    }

    /** `WriteOp(spv::OpExtension, "SPV_EXT_fragment_shader_interlock")`: the instruction whose
      * operands are the name packed as `InterlockExtensionOperands` shows `WriteOp` packs it. */
    method WriteInterlockExtension()
      requires Emitted() && lastRank <= 2
      modifies this`stream, this`instrs, this`lastRank
      ensures Emitted() && lastRank == 2
      ensures instrs == old(instrs) + Extensions(true)
    {
      assert InSection([InterlockExtensionInstruction()], 2);
      WriteAll([InterlockExtensionInstruction()], 2);
    }

    /** The entry point with the given interface, then the execution modes of the stage. */
    method WriteEntryPoint(interlock: bool, mainFunction: u32, inputs: seq<u32>, outputs: seq<u32>)
      requires Emitted() && lastRank <= 5
      modifies this`stream, this`instrs, this`lastRank
      ensures Emitted() && lastRank <= 6
      ensures instrs == old(instrs) + [EntryPoint(shaderType, mainFunction, inputs, outputs)]
        + ExecutionModes(shaderType, interlock, mainFunction)
    {
      WriteEntryPointInstruction(mainFunction, inputs, outputs);
      ExecutionModesInSection(shaderType, interlock, mainFunction);
      WriteAll(ExecutionModes(shaderType, interlock, mainFunction), 6);
    }

    /** `WriteOp(spv::OpEntryPoint, executionModel, mainFunctionId, "main", inputs, outputs)`. */
    method WriteEntryPointInstruction(mainFunction: u32, inputs: seq<u32>, outputs: seq<u32>)
      requires Emitted() && lastRank <= 5
      modifies this`stream, this`instrs, this`lastRank
      ensures Emitted() && lastRank == 5
      ensures instrs == old(instrs) + [EntryPoint(shaderType, mainFunction, inputs, outputs)]
    {
      EntryPointOperands(shaderType, mainFunction, inputs, outputs);
      WriteOp(OpEntryPoint, [EnumValue(ExecutionModel(shaderType)), Num(mainFunction), Text(Ascii(EntryPointName)),
        Vector(inputs), Vector(outputs)]);
    }

    /** The per-vertex block's annotations (vertex shaders, which also register the int constant
      * 0 that indexes the position member). */
    method WritePerVertexAnnotations(perVertexStructType: u32)
      requires Emitted() && lastRank <= 8 && Counting()
      modifies this`stream, this`instrs, this`lastRank, this`intConstantIds, this`nextId, this`issued
      ensures Emitted() && lastRank <= 8 && Counting()
      ensures shaderType == VertexShader ==> 0 in intConstantIds
      ensures Grows(old(intConstantIds), intConstantIds)
      ensures instrs == old(instrs) + PerVertexAnnotations(shaderType, perVertexStructType)
    {
      WriteAll(PerVertexAnnotations(shaderType, perVertexStructType), 8);
      if shaderType == VertexShader {
        RegisterIntConstant(0);
      }
    }

    /** The decorations of the textures (when there are any), inputs and outputs, then the
      * stride of the runtime uint array. */
    method WriteInterfaceDecorations(ghost a: Allocation) returns (r: Outcome)
      requires Emitted() && lastRank <= 8 && Allocates(a)
      modifies this`stream, this`instrs, this`lastRank
      ensures Emitted() && lastRank <= 8
      ensures r.Pass? <==> InterfaceDecorated(program, shaderType, a)
      ensures r.Pass? ==> instrs == WithInterfaceDecorations(old(instrs), program, shaderType, a)
    {
      hide Collect, TextureDecorations, InputDecorations, OutputDecorations;
      if hasTextures {
        r := DecorateTextureIds();
        if r.Fail? {
          return;
        }
      } else {
        NothingAppended(instrs);
      }
      r := DecorateInputPointerIds();
      if r.Fail? {
        return;
      }
      r := DecorateOutputPointerIds();
      if r.Fail? {
        return;
      }
      assert InSection([ArrayStride(types)], 8);
      WriteAll([ArrayStride(types)], 8);
    }

    /** The basic types, the uniform blocks' types and, when there are textures, the image
      * types. */
    method WriteTypeDeclarations(ids: MainIds)
      requires Emitted() && lastRank <= 9
      modifies this`stream, this`instrs, this`lastRank
      ensures Emitted() && lastRank <= 9
      ensures instrs == old(instrs) + BasicTypes(shaderType, types, ids) + UniformTypes(structInfos, types)
                                    + (if hasTextures then ImageTypes(types) else [])
    {
      TypesInSection(shaderType, types, ids);
      WriteAll(BasicTypes(shaderType, types, ids), 9);
      DeclareUniformStructIds();
      if hasTextures {
        WriteAll(ImageTypes(types), 9);
      } else {
        NothingAppended(instrs);
      }
    }

    /** The input and output variables, the per-vertex variable (vertex shaders), the block
      * variables and, when there are textures, the texture variables. */
    method WriteVariables(ids: MainIds) returns (r: Outcome)
      requires Emitted() && lastRank <= 9
      modifies this`stream, this`instrs, this`lastRank
      ensures Emitted() && lastRank <= 9
      ensures var inputs := Collect(InputVariables(program, types, inputPointerIds), |program.symbols|);
        var outputs := Collect(OutputVariables(program, types, outputPointerIds), |program.symbols|);
        var textures := Collect(TextureVariables(program, types, texturePointerIds), |program.symbols|);
        && (r.Pass? <==> inputs.Ok? && outputs.Ok? && (hasTextures ==> textures.Ok?))
        && (r.Pass? ==> instrs == old(instrs) + Listed(inputs) + Listed(outputs) + PerVertexVariable(shaderType, types, ids)
                                              + BlockVariableList(structInfos) + (if hasTextures then Listed(textures) else []))
    {
      r := DeclareInputPointerIds();
      if r.Fail? {
        return;
      }
      r := DeclareOutputPointerIds();
      if r.Fail? {
        return;
      }
      assert InSection(PerVertexVariable(shaderType, types, ids), 9);
      WriteAll(PerVertexVariable(shaderType, types, ids), 9);
      DeclareBlockVariables();
      if hasTextures {
        r := DeclareTextureIds();
      } else {
        NothingAppended(instrs);
      }
    }

    /** The registered float, int and uint constants, each kind in key order. */
    method WriteScalarConstants()
      requires Emitted() && lastRank <= 9
      modifies this`stream, this`instrs, this`lastRank
      ensures Emitted() && lastRank <= 9
      ensures instrs == old(instrs) + ConstantList(types.floatType, floatConstantIds)
        + ConstantList(types.intType, intConstantIds) + ConstantList(types.uintType, uintConstantIds)
    {
      DeclareConstants(types.floatType, floatConstantIds);
      DeclareConstants(types.intType, intConstantIds);
      DeclareConstants(types.uintType, uintConstantIds);
    }

    /** The main function: its header and label, the statements lowered by `lower` (`Generate`
      * passes `Lower`), then the return and the function end. */
    method WriteMainFunction(lower: Lowering, ids: MainIds) returns (r: Outcome, ghost body: Lowered)
      requires Emitted() && lastRank <= 9 && Counting() && endLabelId == 0
      modifies this`stream, this`instrs, this`lastRank, this`nextId, this`issued, this`temporaryValueIds, this`endLabelId
      ensures Counting() && issued >= old(issued)
      ensures r.Pass? <==> LowerWith(lower, View(), old(temporaryValueIds), old(issued), |program.statements|).Ok?
      ensures r.Pass? ==>
        && Encoded()
        && LowerWith(lower, View(), old(temporaryValueIds), old(issued), |program.statements|) == Ok(body)
        && instrs == old(instrs) + MainHead(ids) + body.ins + MainTail
        && issued == old(issued) + body.used
    {
      assert InSection(MainHead(ids), 11);
      WriteAll(MainHead(ids), 11);
      r, body := WriteMainBody(lower);
    }

    /** The statements of the main function, then its return and end. */
    method WriteMainBody(lower: Lowering) returns (r: Outcome, ghost body: Lowered)
      requires Emitted() && Counting() && endLabelId == 0
      modifies this`stream, this`instrs, this`nextId, this`issued, this`temporaryValueIds, this`endLabelId
      ensures Counting() && issued >= old(issued)
      ensures r.Pass? <==> LowerWith(lower, View(), old(temporaryValueIds), old(issued), |program.statements|).Ok?
      ensures r.Pass? ==>
        && Encoded()
        && LowerWith(lower, View(), old(temporaryValueIds), old(issued), |program.statements|) == Ok(body)
        && instrs == old(instrs) + body.ins + MainTail
        && issued == old(issued) + body.used
    {
      ghost var before, written := stream, instrs;
      r := WriteMain(lower);
      body := Lowered([], map[], 0, 0);
      if r.Pass? {
        body := LowerWith(lower, View(), old(temporaryValueIds), old(issued), |program.statements|).value;
        EncodeAllConcat(written, body.ins);
        SliceConcat(before, EncodeAll(body.ins), 5);
        EncodeAllConcat(instrs, MainTail);
        SliceConcat(stream, EncodeAll(MainTail), 5);
        stream := stream + EncodeAll(MainTail);
        instrs := instrs + MainTail;
      }
    }

    // ----- Generate -----

    /** The stream once the bound is patched: the header carries `m_nextId`, one more than the
      * largest id handed out while the counter has not wrapped. */
    ghost predicate Patched()
      reads this`stream, this`instrs, this`nextId
    {
      |stream| >= 5 && stream[..5] == [MagicNumber, Version13, 0, nextId, 0] && stream[5..] == EncodeAll(instrs)
    }

    /** The bound patch at the end of `Generate`: the fourth header word (byte offset 12) is
      * overwritten with `m_nextId`. */
    method PatchBound()
      requires Encoded()
      modifies this`stream
      ensures Patched() && stream == old(stream)[3 := nextId]
    {
      stream := stream[3 := nextId];
      assert stream[5..] == old(stream)[5..];
    }

    /** The capabilities, the entry point with its interface (the input pointers in key order;
      * the per-vertex variable of a vertex shader, then the output pointers in key order) and
      * the execution modes. */
    method WritePreamble(interlock: bool, mainFunction: u32)
      requires Emitted() && instrs == [] && lastRank <= 1
      modifies this`stream, this`instrs, this`lastRank
      ensures Emitted() && lastRank <= 6
      ensures instrs == Preamble(shaderType, interlock, mainFunction, ValuesByKey(inputPointerIds),
        EntryOutputs(shaderType, types.outputPerVertexVariable, outputPointerIds))
    {
      var inputs := ValuesByKey(inputPointerIds);
      var outputs := EntryOutputs(shaderType, types.outputPerVertexVariable, outputPointerIds);
      NothingBefore(Capabilities(interlock));
      WriteCapabilities(interlock);
      WriteEntryPoint(interlock, mainFunction, inputs, outputs);
    }

    /** The annotations: the per-vertex block, the uniform blocks and their members, then the
      * textures, inputs and outputs and the array stride. */
    method WriteAnnotations(ids: MainIds, ghost a: Allocation) returns (r: Outcome)
      requires Emitted() && lastRank <= 8 && Counting() && Allocates(a) && ids == a.ids
      requires structInfos == a.blocks && CountersAtZero(a.blocks) && NoMemberIndices(a.blocks)
      modifies this`stream, this`instrs, this`lastRank, this`structInfos, this`intConstantIds, this`nextId, this`issued
      ensures Emitted() && lastRank <= 8 && Counting()
      ensures r.Pass? <==> AnnotationsOk(program, shaderType, a)
      ensures r.Pass? ==> instrs == WithAnnotations(old(instrs), program, shaderType, a) && structInfos == LaidOut(program, a)
    {
      hide WithBlockAnnotations, WithInterfaceDecorations, InterfaceDecorated, LaidOut, Collect, Allocates;
      r := WriteBlockAnnotations(ids, a);
      if r.Fail? {
        return;
      }
      r := WriteInterfaceDecorations(a);
    }

    /** The per-vertex block's annotations, then the uniform blocks' and their members'. */
    method WriteBlockAnnotations(ids: MainIds, ghost a: Allocation) returns (r: Outcome)
      requires Emitted() && lastRank <= 8 && Counting() && ids == a.ids
      requires structInfos == a.blocks && CountersAtZero(a.blocks) && NoMemberIndices(a.blocks)
      modifies this`stream, this`instrs, this`lastRank, this`structInfos, this`intConstantIds, this`nextId, this`issued
      ensures Emitted() && lastRank <= 8 && Counting()
      ensures r.Pass? <==> Collect(MemberDecorationStep(program, a.blocks), |program.symbols|).Ok?
      ensures r.Pass? ==> instrs == WithBlockAnnotations(old(instrs), program, shaderType, a) && structInfos == LaidOut(program, a)
    {
      WritePerVertexAnnotations(ids.perVertexStructType);
      r := DecorateUniformStructIds();
    }

    /** The declarations: types, variables, then (after gathering the temporaries' lanes) the
      * scalar constants and the temporaries' composite constants. `c` holds the constant tables
      * the gathering leaves and the id count the composite constants start from. */
    method WriteDeclarations(ids: MainIds, ghost a: Allocation) returns (r: Outcome, ghost c: Constants)
      requires Emitted() && lastRank <= 9 && Counting() && Allocates(a) && ids == a.ids && structInfos == LaidOut(program, a)
      requires temporaryValueIds == map[]
      modifies this`stream, this`instrs, this`lastRank, this`floatConstantIds, this`intConstantIds, this`uintConstantIds
      modifies this`temporaryValueIds, this`nextId, this`issued
      ensures Emitted() && lastRank <= 9 && Counting()
      ensures r.Pass? <==> VariablesOk(program, a) && ConstantsOk(program, a, c)
      ensures r.Pass? ==> Registers(c) && instrs == WithDeclarations(old(instrs), program, shaderType, a, c)
      ensures r.Pass? ==> temporaryValueIds == MainTemps(program, c) && issued == MainBase(program, c)
    {
      c := Constants(floatConstantIds, intConstantIds, uintConstantIds, issued);
      r := WriteTypesAndVariables(ids, a);
      if r.Fail? {
        return;
      }
      r, c := WriteConstants(a);
    }

    /** The constants: after gathering the temporaries' lanes, the scalar constants of `c`, then
      * the temporaries' composite constants, whose ids start after the `c.base` ids handed out
      * by then. */
    method WriteConstants(ghost a: Allocation) returns (r: Outcome, ghost c: Constants)
      requires Emitted() && lastRank <= 9 && Counting() && types == a.types && temporaryValueIds == map[]
      modifies this`stream, this`instrs, this`lastRank, this`floatConstantIds, this`intConstantIds, this`uintConstantIds
      modifies this`temporaryValueIds, this`nextId, this`issued
      ensures Emitted() && lastRank <= 9 && Counting()
      ensures r.Pass? <==> ConstantsOk(program, a, c)
      ensures r.Pass? ==> Registers(c) && instrs == WithConstants(old(instrs), program, a, c)
      ensures r.Pass? ==> temporaryValueIds == MainTemps(program, c) && issued == MainBase(program, c)
    {
      r, c := GatherConstants();
      if r.Fail? {
        return;
      }
      r := WriteRegisteredConstants(a, c);
    }

    /** `GatherConstantsFromTemps`, with `c` the tables it leaves and the id count by then. */
    method GatherConstants() returns (r: Outcome, ghost c: Constants)
      requires Counting()
      modifies this`floatConstantIds, this`intConstantIds, this`uintConstantIds, this`nextId, this`issued
      ensures Counting() && Registers(c) && issued == c.base
      ensures r.Pass? <==> forall i :: 0 <= i < |program.symbols| ==> ConstantTemporary(program.symbols[i])
      ensures r.Pass? ==> forall i :: 0 <= i < |program.symbols| ==>
        LanesRegistered(program, program.symbols[i], c.floats, c.ints, c.uints)
    {
      r := GatherConstantsFromTemps();
      c := Constants(floatConstantIds, intConstantIds, uintConstantIds, issued);
    }

    /** The scalar constants of `c`, then the temporaries' composite constants, whose ids start
      * after the `c.base` ids handed out so far. */
    method WriteRegisteredConstants(ghost a: Allocation, ghost c: Constants) returns (r: Outcome)
      requires Emitted() && lastRank <= 9 && Counting() && types == a.types && Registers(c) && issued == c.base
      requires temporaryValueIds == map[]
      modifies this`stream, this`instrs, this`lastRank, this`temporaryValueIds, this`nextId, this`issued
      ensures Emitted() && lastRank <= 9 && Counting()
      ensures r.Pass? <==> Collect(TemporaryStep(program, a.types, c.floats, c.ints, c.uints, c.base), |program.symbols|).Ok?
      ensures r.Pass? ==> instrs == WithConstants(old(instrs), program, a, c)
      ensures r.Pass? ==> temporaryValueIds == MainTemps(program, c) && issued == MainBase(program, c)
    {
      WriteScalarConstants();
      r := DeclareTemporaryValueIds();
    }

    /** The type declarations, then the variables. */
    method WriteTypesAndVariables(ids: MainIds, ghost a: Allocation) returns (r: Outcome)
      requires Emitted() && lastRank <= 9 && Allocates(a) && ids == a.ids && structInfos == LaidOut(program, a)
      modifies this`stream, this`instrs, this`lastRank
      ensures Emitted() && lastRank <= 9
      ensures r.Pass? <==> VariablesOk(program, a)
      ensures r.Pass? ==> instrs == WithVariables(WithTypes(old(instrs), program, shaderType, a), program, shaderType, a)
    {
      WriteTypeDeclarations(ids);
      r := WriteVariables(ids);
    }

    /** The instructions written so far keep the layout order of the sections up to `last`. */
    lemma EmittedInSections(last: nat)
      requires Emitted() && lastRank <= last
      ensures Sections(instrs, last)
    {
      SectionsWiden(instrs, lastRank, last);
    }

    /** `Generate`: the header with the id bound patched in, the capabilities, entry point (listing
      * the interface in key order) and execution modes, the annotations and declarations in
      * layout order, then the main function, whose body is the lowering of every statement in
      * turn. It succeeds exactly when the allocation, every pass and every statement do. `a` is
      * what the allocation leaves, `c` the constant tables once the temporaries' lanes are
      * registered; the bound is one more than the number of ids handed out. */
    method Generate() returns (r: Outcome, ids: MainIds, ghost a: Allocation, ghost c: Constants, ghost body: Lowered)
      requires Fresh()
      modifies this
      ensures hasTextures == HasTextures(program)
      ensures AllocationOk(program) ==> Keyed(program, a) && AllocatedFrom(a, 0)
      ensures r.Pass? <==>
        && AllocationOk(program) && AnnotationsOk(program, shaderType, a) && VariablesOk(program, a) && ConstantsOk(program, a, c)
        && LowerProgram(Lower, View(), MainTemps(program, c), MainBase(program, c)).Ok?
      ensures r.Pass? ==>
        && ids == a.ids && Allocates(a) && Registers(c) && structInfos == LaidOut(program, a)
        && LowerProgram(Lower, View(), MainTemps(program, c), MainBase(program, c)) == Ok(body)
        && instrs == Declared(program, shaderType, a, c) + MainHead(ids) + body.ins + MainTail
        && Sections(Declared(program, shaderType, a, c), 9)
        && Patched() && Counting() && issued == MainBase(program, c) + body.used
        && (NoWrap() ==> stream[3] == issued + 1)
    {
      hide *;
      r, ids, a, c, body := GenerateWith(Lower);
    }

    /** `Generate` over any statement lowering; `Generate` passes the statement switch `Lower`. */
    method GenerateWith(lower: Lowering) returns (r: Outcome, ids: MainIds, ghost a: Allocation, ghost c: Constants,
                                                  ghost body: Lowered)
      requires Fresh()
      modifies this
      ensures hasTextures == HasTextures(program)
      ensures AllocationOk(program) ==> Keyed(program, a) && AllocatedFrom(a, 0)
      ensures r.Pass? <==>
        && AllocationOk(program) && AnnotationsOk(program, shaderType, a) && VariablesOk(program, a) && ConstantsOk(program, a, c)
        && LowerProgram(lower, View(), MainTemps(program, c), MainBase(program, c)).Ok?
      ensures r.Pass? ==>
        && ids == a.ids && Allocates(a) && Registers(c) && structInfos == LaidOut(program, a)
        && LowerProgram(lower, View(), MainTemps(program, c), MainBase(program, c)) == Ok(body)
        && instrs == Declared(program, shaderType, a, c) + MainHead(ids) + body.ins + MainTail
        && Sections(Declared(program, shaderType, a, c), 9)
        && Patched() && Counting() && issued == MainBase(program, c) + body.used
        && (NoWrap() ==> stream[3] == issued + 1)
    {
      hide *;
      body := NoBody;
      r, ids, a, c := WriteDeclared();
      if r.Fail? {
        return;
      }
      r, body := WriteMainAndPatch(lower, ids, MainTemps(program, c), MainBase(program, c));
    }

    /** The main function, with the statements lowered by `lower` from the bindings `temps` and
      * the id count `base`, then the bound patch. */
    method WriteMainAndPatch(lower: Lowering, ids: MainIds, ghost temps: map<u32, u32>, ghost base: nat)
      returns (r: Outcome, ghost body: Lowered)
      requires Emitted() && lastRank <= 9 && Counting() && endLabelId == 0
      requires temporaryValueIds == temps && issued == base
      modifies this`stream, this`instrs, this`lastRank, this`nextId, this`issued, this`temporaryValueIds, this`endLabelId
      ensures r.Pass? <==> LowerProgram(lower, View(), temps, base).Ok?
      ensures r.Pass? ==>
        && Patched() && Counting()
        && instrs == old(instrs) + MainHead(ids) + body.ins + MainTail
        && LowerProgram(lower, View(), temps, base) == Ok(body)
        && issued == base + body.used
        && (NoWrap() ==> stream[3] == issued + 1)
    {
      r, body := WriteMainFunction(lower, ids);
      if r.Pass? {
        PatchBound();
        assert stream[3] == stream[..5][3] == nextId;
      }
    }

    /** `Generate` up to the main function: the header, the ids, then the preamble, annotations
      * and declarations. */
    method WriteDeclared() returns (r: Outcome, ids: MainIds, ghost a: Allocation, ghost c: Constants)
      requires Fresh()
      modifies this`stream, this`instrs, this`lastRank, this`nextId, this`issued, this`types, this`hasTextures
      modifies this`inputPointerIds, this`outputPointerIds, this`temporaryValueIds, this`texturePointerIds
      modifies this`intConstantIds, this`uintConstantIds, this`floatConstantIds, this`structInfos
      ensures hasTextures == HasTextures(program)
      ensures AllocationOk(program) ==> Keyed(program, a) && AllocatedFrom(a, 0)
      ensures r.Pass? <==> AllocationOk(program) && AnnotationsOk(program, shaderType, a) && VariablesOk(program, a) && ConstantsOk(program, a, c)
      ensures r.Pass? ==>
        && Emitted() && lastRank <= 9 && Counting() && Sections(instrs, 9) && endLabelId == 0
        && ids == a.ids && Allocates(a) && Registers(c) && structInfos == LaidOut(program, a)
        && instrs == Declared(program, shaderType, a, c)
        && temporaryValueIds == MainTemps(program, c) && issued == MainBase(program, c)
    {
      hide *;
      c := Constants(map[], map[], map[], 0);
      r, ids, a := WriteHeaderAndAllocate();
      if r.Fail? {
        return;
      }
      r, c := WriteSections(ids, a);
      if r.Pass? {
        EmittedInSections(9);
      }
    }

    /** The header, then every id the sections need: `a` is what the allocation leaves. */
    method WriteHeaderAndAllocate() returns (r: Outcome, ids: MainIds, ghost a: Allocation)
      requires Fresh()
      modifies this`stream, this`instrs, this`lastRank, this`nextId, this`issued, this`types, this`hasTextures
      modifies this`inputPointerIds, this`outputPointerIds, this`texturePointerIds, this`structInfos
      ensures hasTextures == HasTextures(program)
      ensures AllocationOk(program) ==> Keyed(program, a) && AllocatedFrom(a, 0)
      ensures r.Pass? <==> AllocationOk(program)
      ensures r.Pass? ==>
        && Emitted() && instrs == [] && lastRank <= 1 && Counting() && Allocates(a) && ids == a.ids
        && structInfos == a.blocks && CountersAtZero(a.blocks) && NoMemberIndices(a.blocks)
        && temporaryValueIds == map[] && endLabelId == 0
    {
      hide AllocatedFrom, Keyed, AllocationOk, CountersAtZero, NoMemberIndices, ToU32, HasTextures;
      WriteHeader();
      hasTextures := HasTextures(program);
      r, ids := AllocateAll();
      a := Allocation(types, ids, hasTextures, inputPointerIds, outputPointerIds, texturePointerIds, structInfos);
    }

    /** The preamble, the annotations and the declarations. */
    method WriteSections(ids: MainIds, ghost a: Allocation) returns (r: Outcome, ghost c: Constants)
      requires Emitted() && instrs == [] && lastRank <= 1 && Counting() && Allocates(a) && ids == a.ids
      requires structInfos == a.blocks && CountersAtZero(a.blocks) && NoMemberIndices(a.blocks) && temporaryValueIds == map[]
      modifies this`stream, this`instrs, this`lastRank, this`nextId, this`issued, this`temporaryValueIds
      modifies this`intConstantIds, this`uintConstantIds, this`floatConstantIds, this`structInfos
      ensures r.Pass? <==> AnnotationsOk(program, shaderType, a) && VariablesOk(program, a) && ConstantsOk(program, a, c)
      ensures r.Pass? ==>
        && Emitted() && lastRank <= 9 && Counting()
        && Allocates(a) && Registers(c) && structInfos == LaidOut(program, a)
        && instrs == Declared(program, shaderType, a, c)
        && temporaryValueIds == MainTemps(program, c) && issued == MainBase(program, c)
    {
      hide AnnotationsOk, VariablesOk, ConstantsOk, WithAnnotations, WithDeclarations, LaidOut, MainTemps, MainBase,
        Registers, Preamble;
      WritePreamble(HasInvocationInterlock(program), ids.mainFunction);
      r, c := WriteAnnotationsAndDeclarations(ids, a);
    }

    /** The annotations, then the declarations. */
    method WriteAnnotationsAndDeclarations(ids: MainIds, ghost a: Allocation) returns (r: Outcome, ghost c: Constants)
      requires Emitted() && lastRank <= 8 && Counting() && Allocates(a) && ids == a.ids
      requires structInfos == a.blocks && CountersAtZero(a.blocks) && NoMemberIndices(a.blocks) && temporaryValueIds == map[]
      modifies this`stream, this`instrs, this`lastRank, this`nextId, this`issued, this`temporaryValueIds
      modifies this`intConstantIds, this`uintConstantIds, this`floatConstantIds, this`structInfos
      ensures r.Pass? <==> AnnotationsOk(program, shaderType, a) && VariablesOk(program, a) && ConstantsOk(program, a, c)
      ensures r.Pass? ==>
        && Emitted() && lastRank <= 9 && Counting()
        && Registers(c) && structInfos == LaidOut(program, a)
        && instrs == WithDeclarations(WithAnnotations(old(instrs), program, shaderType, a), program, shaderType, a, c)
        && temporaryValueIds == MainTemps(program, c) && issued == MainBase(program, c)
    {
      hide *;
      c := Constants(map[], map[], map[], 0);
      r := WriteAnnotations(ids, a);
      if r.Fail? {
        return;
      }
      r, c := WriteDeclarations(ids, a);
    }
  }
}

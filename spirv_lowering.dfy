/** What the main function of the SPIR-V generator (src/generators/SpirvShaderGenerator.cpp)
  * writes for each statement: `LoadFromSymbol`, `StoreToSymbol`, `GetOutputPointerId`,
  * `ExtractFloat4X`, `GetResultType` and the cases of the statement switch in `Generate`, as
  * functions of the tables the declaration passes leave and of the number of ids allocated
  * before. Temporaries are SSA values: a load reads the id a temporary is bound to, a store
  * rebinds it. */
module SpirvLowering {
  import opened Wrappers
  import opened Swizzle
  import opened Ir
  import opened ShaderProgram
  import opened Spv
  import opened SpirvEncoding
  import opened SpirvSupport
  import opened SpirvPasses

  // ----- failure messages (the source asserts; the model stops with one of these) -----

  const GetOutputPointerIdPositionOutputOutsideVertexShader: string := "GetOutputPointerId: position output outside a vertex shader"
  const GetOutputPointerIdNoIntConstant0: string := "GetOutputPointerId: no int constant 0"
  const GetOutputPointerIdOutputHasNoPointer: string := "GetOutputPointerId: output has no pointer"
  const GetOutputPointerIdUnsupportedOutputSemantic: string := "GetOutputPointerId: unsupported output semantic"
  const LoadFromSymbolInputHasNoPointer: string := "LoadFromSymbol: input has no pointer"
  const LoadFromSymbolNoIntConstant0: string := "LoadFromSymbol: no int constant 0"
  const LoadFromSymbolInputIsNotFloat4: string := "LoadFromSymbol: input is not Float4"
  const LoadFromSymbolOutputIsNotFloat4: string := "LoadFromSymbol: output is not Float4"
  const LoadFromSymbolNoUniformBlock: string := "LoadFromSymbol: no uniform block"
  const LoadFromSymbolUniformOutsidePushConstantBlock: string := "LoadFromSymbol: uniform outside the push-constant block"
  const LoadFromSymbolUniformUnitHasNoBlock: string := "LoadFromSymbol: uniform unit has no block"
  const LoadFromSymbolMemberIndexHasNoIntConstant: string := "LoadFromSymbol: member index has no int constant"
  const LoadFromSymbolUnsupportedUniformType: string := "LoadFromSymbol: unsupported uniform type"
  const LoadFromSymbolNoTextures: string := "LoadFromSymbol: no textures"
  const LoadFromSymbolNoSampledImageType: string := "LoadFromSymbol: no sampled image type"
  const LoadFromSymbolNoStorageImageType: string := "LoadFromSymbol: no storage image type"
  const LoadFromSymbolUnsupportedTextureType: string := "LoadFromSymbol: unsupported texture type"
  const LoadFromSymbolTextureHasNoPointer: string := "LoadFromSymbol: texture has no pointer"
  const LoadFromSymbolTemporaryHasNoValue: string := "LoadFromSymbol: temporary has no value"
  const LoadFromSymbolUnsupportedLocation: string := "LoadFromSymbol: unsupported location"
  const LoadFromSymbolEmptyId: string := "LoadFromSymbol: empty id"
  const StoreToSymbolPartialWritesAreNotSupported: string := "StoreToSymbol: partial writes are not supported"
  const StoreToSymbolOutputIsNotFloat4: string := "StoreToSymbol: output is not Float4"
  const StoreToSymbolUnsupportedLocation: string := "StoreToSymbol: unsupported location"
  const GetResultTypeUnsupportedType: string := "GetResultType: unsupported type"
  const LoadIndexIsNotInt4: string := "LOAD: index is not Int4"
  const LoadArrayHasNoBlock: string := "LOAD: array has no block"
  const LoadMemberIndexHasNoIntConstant: string := "LOAD: member index has no int constant"
  const LoadNoUintConstant0: string := "LOAD: no uint constant 0"
  const Newvector2NeedsTwoSources: string := "NEWVECTOR2: needs two sources"
  const Newvector4NeedsTwoOrFourSources: string := "NEWVECTOR4: needs two or four sources"
  const IfBeginNestedIfsAreNotSupported: string := "IF_BEGIN: nested ifs are not supported"
  const IfEndNoOpenIf: string := "IF_END: no open if"
  const MultiplyUnsupportedOperandTypes: string := "MULTIPLY: unsupported operand types"
  const DivideUnsupportedOperandTypes: string := "DIVIDE: unsupported operand types"
  const ModuloOperandsAreNotInt4: string := "MODULO: operands are not Int4"
  const TofloatSourceIsNotUint4: string := "TOFLOAT: source is not Uint4"
  const TointSourceIsNotFloat4: string := "TOINT: source is not Float4"
  const TouintSourceIsNotFloat4: string := "TOUINT: source is not Float4"
  const GenerateUnsupportedStatement: string := "Generate: unsupported statement"
  const NestedIf: string := "nested if"
  const IfEndWithoutBegin: string := "if end without begin"

  /** What the statements read from the generator and never change: the program, the stage, the
    * type ids, the pointer and constant tables and the uniform blocks. */
  datatype Tables = Tables(
    p: Program,
    stage: ShaderType,
    t: TypeIds,
    hasTextures: bool,
    inputs: map<u32, u32>,
    outputs: map<u32, u32>,
    textures: map<u32, u32>,
    ints: map<u32, u32>,
    uints: map<u32, u32>,
    infos: map<u32, StructInfo>)

  /** The id the k-th call of `AllocateId` returns when `base` ids were handed out before it. */
  function NthId(base: nat, k: nat): u32
  {
    ToU32(base + k)
  }

  /** Shuffle components as literal words. */
  function Words(c: seq<nat>): (ws: seq<Word>)
    requires forall k :: 0 <= k < |c| ==> c[k] < U32_LIMIT
    ensures |ws| == |c| && forall k :: 0 <= k < |c| ==> ws[k] == c[k]
  {
    seq(|c|, k requires 0 <= k < |c| => c[k] as Word)
  }

  /** What a load writes: its instructions, the id of the value loaded and the ids it used. */
  datatype Loaded = Loaded(ins: seq<Instruction>, id: u32, used: nat)

  /** What a store writes: its instructions, the temporary bindings after it and the ids used. */
  datatype Stored = Stored(ins: seq<Instruction>, temps: map<u32, u32>, used: nat)

  /** What a statement writes: its instructions, the temporary bindings and the open IF's end
    * label after it, and the ids it used. */
  datatype Lowered = Lowered(ins: seq<Instruction>, temps: map<u32, u32>, endLabel: u32, used: nat)

  // ----- outputs -----

  /** `GetOutputPointerId`: the position is written through a fresh access chain into the
    * per-vertex block (vertex shaders only, member 0 by the int constant 0); a texture
    * coordinate or the system colour through its output variable; any other semantic is a
    * contract violation. */
  function OutputPointer(g: Tables, s: Symbol, base: nat): (r: Result<Loaded>)
    ensures r.Ok? ==> GetOutputSemantic(g.p, s).Ok?
    ensures r.Ok? && GetOutputSemantic(g.p, s).value.semantic == SystemPosition ==>
      && g.stage == VertexShader && 0 in g.ints && r.value.used == 1 && r.value.id == NthId(base, 1)
      && r.value.ins == [Instruction(OpAccessChain, [g.t.outputFloat4Pointer, r.value.id, g.t.outputPerVertexVariable, g.ints[0]])]
    ensures r.Ok? && GetOutputSemantic(g.p, s).value.semantic != SystemPosition ==>
      && s.index in g.outputs && r.value == Loaded([], g.outputs[s.index], 0)
  {
    match GetOutputSemantic(g.p, s)
    case Err(e) => Err(e)
    case Ok(sem) =>
      if sem.semantic == SystemPosition then
        if g.stage != VertexShader then Err(GetOutputPointerIdPositionOutputOutsideVertexShader)
        else if 0 !in g.ints then Err(GetOutputPointerIdNoIntConstant0)
        else
          var id := NthId(base, 1);
          Ok(Loaded([Instruction(OpAccessChain, [g.t.outputFloat4Pointer, id, g.t.outputPerVertexVariable, g.ints[0]])], id, 1))
      else if sem.semantic == TexCoord || sem.semantic == SystemColor then
        if s.index !in g.outputs then Err(GetOutputPointerIdOutputHasNoPointer)
        else Ok(Loaded([], g.outputs[s.index], 0))
      else Err(GetOutputPointerIdUnsupportedOutputSemantic)
  }

  // ----- loads -----

  /** An input: the invocation id is loaded as an int3 and widened with the int constant 0;
    * any other input is a Float4 loaded through its pointer. */
  function InputLoad(g: Tables, s: Symbol, base: nat): (r: Result<Loaded>)
    ensures r.Ok? ==> r.value.id == NthId(base, 1) && r.value.used >= 1
  {
    if s.index !in g.inputs then Err(LoadFromSymbolInputHasNoPointer)
    else
      match GetInputSemantic(g.p, s)
      case Err(e) => Err(e)
      case Ok(sem) =>
        var id, ptr := NthId(base, 1), g.inputs[s.index];
        if sem.semantic == SystemGiid then
          if 0 !in g.ints then Err(LoadFromSymbolNoIntConstant0)
          else
            var temp := NthId(base, 2);
            Ok(Loaded([Instruction(OpLoad, [g.t.int3Type, temp, ptr]),
                       Instruction(OpCompositeConstruct, [g.t.int4Type, id, temp, g.ints[0]])], id, 2))
        else if s.ty != Float4 then Err(LoadFromSymbolInputIsNotFloat4)
        else Ok(Loaded([Instruction(OpLoad, [g.t.float4Type, id, ptr])], id, 1))
  }

  /** An output: a Float4 read back through the pointer `OutputPointer` gives. */
  function OutputLoad(g: Tables, s: Symbol, base: nat): (r: Result<Loaded>)
    ensures r.Ok? ==> r.value.id == NthId(base, 1) && r.value.used >= 1
  {
    if s.ty != Float4 then Err(LoadFromSymbolOutputIsNotFloat4)
    else
      var id := NthId(base, 1);
      match OutputPointer(g, s, base + 1)
      case Err(e) => Err(e)
      case Ok(ptr) => Ok(Loaded(ptr.ins + [Instruction(OpLoad, [g.t.float4Type, id, ptr.id])], id, 1 + ptr.used))
  }

  /** A uniform: a member of the push-constant block, read through an access chain with the int
    * constant of its member index. */
  function UniformLoad(g: Tables, s: Symbol, base: nat): (r: Result<Loaded>)
    ensures r.Ok? ==> r.value.id == NthId(base, 1) && r.value.used >= 1
  {
    if g.infos == map[] then Err(LoadFromSymbolNoUniformBlock)
    else if s.unit != PushConstantUnit then Err(LoadFromSymbolUniformOutsidePushConstantBlock)
    else if s.unit !in g.infos then Err(LoadFromSymbolUniformUnitHasNoBlock)
    else
      var info := g.infos[s.unit];
      var memberIndex := IdOf(info.memberIndices, s.index);
      if memberIndex !in g.ints then Err(LoadFromSymbolMemberIndexHasNoIntConstant)
      else
        var id, member := NthId(base, 1), NthId(base, 2);
        if s.ty == Float4 then
          Ok(Loaded([Instruction(OpAccessChain, [g.t.pushFloat4Pointer, member, info.variableId, g.ints[memberIndex]]),
                     Instruction(OpLoad, [g.t.float4Type, id, member])], id, 2))
        else if s.ty == Matrix then
          Ok(Loaded([Instruction(OpAccessChain, [g.t.pushMatrix44Pointer, member, info.variableId, g.ints[memberIndex]]),
                     Instruction(OpLoad, [g.t.matrix44Type, id, member])], id, 2))
        else Err(LoadFromSymbolUnsupportedUniformType)
  }

  /** A texture: the sampled image or storage image of the unit. */
  function TextureLoad(g: Tables, s: Symbol, base: nat): (r: Result<Loaded>)
    ensures r.Ok? ==> r.value.id == NthId(base, 1) && r.value.used >= 1
  {
    if !g.hasTextures then Err(LoadFromSymbolNoTextures)
    else if s.ty == Texture2D && g.t.sampledImageSamplerType == 0 then Err(LoadFromSymbolNoSampledImageType)
    else if s.ty == Image2DUint && g.t.storageImage2DType == 0 then Err(LoadFromSymbolNoStorageImageType)
    else if s.ty != Texture2D && s.ty != Image2DUint then Err(LoadFromSymbolUnsupportedTextureType)
    else if s.unit !in g.textures then Err(LoadFromSymbolTextureHasNoPointer)
    else
      var imageType := if s.ty == Texture2D then g.t.sampledImageSamplerType else g.t.storageImage2DType;
      var id := NthId(base, 1);
      Ok(Loaded([Instruction(OpLoad, [imageType, id, g.textures[s.unit]])], id, 1))
  }

  /** `LoadFromSymbol` up to its swizzle: the value of a symbol, by location. */
  function LoadLocation(g: Tables, temps: map<u32, u32>, s: Symbol, base: nat): (r: Result<Loaded>)
    ensures r.Ok? ==> s.location in {Input, Output, Uniform, Texture, Temporary}
    ensures r.Ok? && s.location == Temporary ==> s.index in temps && r.value == Loaded([], temps[s.index], 0)
    ensures r.Ok? && s.location != Temporary ==> r.value.id == NthId(base, 1) && r.value.used >= 1
  {
    if s.location == Input then InputLoad(g, s, base)
    else if s.location == Output then OutputLoad(g, s, base)
    else if s.location == Uniform then UniformLoad(g, s, base)
    else if s.location == Texture then TextureLoad(g, s, base)
    else if s.location == Temporary then
      if s.index !in temps then Err(LoadFromSymbolTemporaryHasNoValue)
      else Ok(Loaded([], temps[s.index], 0))
    else Err(LoadFromSymbolUnsupportedLocation)
  }

  /** `LoadFromSymbol`: the value of the symbol, never the empty id; a Float4 read through a
    * swizzle other than X, XY, XYZ and XYZW is then shuffled with itself into a fresh id so that
    * the lanes the swizzle reads come first (see `SwizzledLoadReadsLanes`). */
  function Load(g: Tables, temps: map<u32, u32>, ref: SymbolRef, base: nat): (r: Result<Loaded>)
  {
    match LoadLocation(g, temps, ref.symbol, base)
    case Err(e) => Err(e)
    case Ok(v) =>
      if v.id == 0 then Err(LoadFromSymbolEmptyId)
      else if ref.symbol.ty == Float4 && !IsIdentitySwizzle(ref.swizzle) then
        match ShuffleComponents(ref.swizzle)
        case Err(e) => Err(e)
        case Ok(c) =>
          var id := NthId(base, v.used + 1);
          if id == 0 then Err(LoadFromSymbolEmptyId)
          else Ok(Loaded(v.ins + [Instruction(OpVectorShuffle, [g.t.float4Type, id, v.id, v.id] + Words(c))], id, v.used + 1))
      else Ok(v)
  }

  /** A temporary read without a shuffle is its current binding: nothing is written and no id is
    * allocated. */
  lemma LoadTemporary(g: Tables, temps: map<u32, u32>, ref: SymbolRef, base: nat)
    requires ref.symbol.location == Temporary && (ref.symbol.ty != Float4 || IsIdentitySwizzle(ref.swizzle))
    ensures Load(g, temps, ref, base).Ok? <==> ref.symbol.index in temps && temps[ref.symbol.index] != 0
    ensures Load(g, temps, ref, base).Ok? ==> Load(g, temps, ref, base).value == Loaded([], temps[ref.symbol.index], 0)
  {
  }

  /** A Float4 read through a swizzle other than X, XY, XYZ and XYZW takes exactly one more id
    * and one `OpVectorShuffle` of the loaded vector with itself; of those swizzles only Y, Z, W
    * and WW are supported. */
  lemma LoadShuffled(g: Tables, temps: map<u32, u32>, ref: SymbolRef, base: nat)
    requires ref.symbol.ty == Float4 && !IsIdentitySwizzle(ref.swizzle)
    requires LoadLocation(g, temps, ref.symbol, base).Ok?
    ensures var v := LoadLocation(g, temps, ref.symbol, base).value;
      Load(g, temps, ref, base).Ok? <==> v.id != 0 && ref.swizzle in {Y, Z, W, WW} && NthId(base, v.used + 1) != 0
    ensures var v := LoadLocation(g, temps, ref.symbol, base).value;
      Load(g, temps, ref, base).Ok? ==>
        var l := Load(g, temps, ref, base).value;
        && l.used == v.used + 1 && l.id == NthId(base, l.used)
        && l.ins == v.ins + [Instruction(OpVectorShuffle, [g.t.float4Type, l.id, v.id, v.id] + Words(ShuffleComponents(ref.swizzle).value))]
  {
  }

  // ----- stores -----

  /** `StoreToSymbol`: only whole-symbol writes are supported (the swizzle must be X, XY, XYZ or
    * XYZW). A Float4 output is written with one `OpStore` through its pointer; a temporary is
    * rebound to the value, writing nothing; any other destination is a contract violation. */
  function Store(g: Tables, temps: map<u32, u32>, ref: SymbolRef, value: u32, base: nat): (r: Result<Stored>)
    ensures r.Ok? ==> IsIdentitySwizzle(ref.swizzle)
    ensures r.Ok? ==> ref.symbol.location == Temporary || ref.symbol.location == Output
    ensures IsIdentitySwizzle(ref.swizzle) && ref.symbol.location == Temporary ==>
      r == Ok(Stored([], temps[ref.symbol.index := value], 0))
    ensures r.Ok? && ref.symbol.location == Output ==>
      && ref.symbol.ty == Float4 && OutputPointer(g, ref.symbol, base).Ok?
      && var ptr := OutputPointer(g, ref.symbol, base).value;
        r.value == Stored(ptr.ins + [Instruction(OpStore, [ptr.id, value])], temps, ptr.used)
  {
    if !IsIdentitySwizzle(ref.swizzle) then Err(StoreToSymbolPartialWritesAreNotSupported)
    else if ref.symbol.location == Output then
      if ref.symbol.ty != Float4 then Err(StoreToSymbolOutputIsNotFloat4)
      else
        match OutputPointer(g, ref.symbol, base)
        case Err(e) => Err(e)
        case Ok(ptr) => Ok(Stored(ptr.ins + [Instruction(OpStore, [ptr.id, value])], temps, ptr.used))
    else if ref.symbol.location == Temporary then Ok(Stored([], temps[ref.symbol.index := value], 0))
    else Err(StoreToSymbolUnsupportedLocation)
  }

  // ----- statements -----

  /** `GetResultType`: the vector type of a NEWVECTOR destination; any type but Uint4, Int4 and
    * Float4 is a contract violation. */
  function ResultType(t: TypeIds, ty: SymbolType): (r: Result<u32>)
    ensures r.Ok? <==> ty in {Uint4, Int4, Float4}
  {
    match ty
    case Uint4 => Ok(t.uint4Type)
    case Int4 => Ok(t.int4Type)
    case Float4 => Ok(t.float4Type)
    case _ => Err(GetResultTypeUnsupportedType)
  }

  /** A statement whose result goes to a fresh id from one instruction over the loaded first and
    * second sources, then to the destination. */
  function Binary(g: Tables, temps: map<u32, u32>, endLabel: u32, st: Statement, op: Opcode, ty: u32, base: nat): (r: Result<Lowered>)
    ensures r.Ok? ==> r.value.endLabel == endLabel
  {
    match Load(g, temps, st.src1, base)
    case Err(e) => Err(e)
    case Ok(a) =>
      match Load(g, temps, st.src2, base + a.used)
      case Err(e) => Err(e)
      case Ok(b) =>
        var n := a.used + b.used + 1;
        var id := NthId(base, n);
        match Store(g, temps, st.dst, id, base + n)
        case Err(e) => Err(e)
        case Ok(s) => Ok(Lowered(a.ins + b.ins + [Instruction(op, [ty, id, a.id, b.id])] + s.ins, s.temps, endLabel, n + s.used))
  }

  /** A conversion: one instruction over the loaded first source. */
  function Unary(g: Tables, temps: map<u32, u32>, endLabel: u32, st: Statement, op: Opcode, ty: u32, base: nat): (r: Result<Lowered>)
    ensures r.Ok? ==> r.value.endLabel == endLabel
  {
    match Load(g, temps, st.src1, base)
    case Err(e) => Err(e)
    case Ok(a) =>
      var n := a.used + 1;
      var id := NthId(base, n);
      match Store(g, temps, st.dst, id, base + n)
      case Err(e) => Err(e)
      case Ok(s) => Ok(Lowered(a.ins + [Instruction(op, [ty, id, a.id])] + s.ins, s.temps, endLabel, n + s.used))
  }

  /** `ExtractFloat4X` of a loaded source: a fresh id holding its first lane. */
  function ExtractX(g: Tables, a: Loaded, base: nat): Loaded
  {
    var id := NthId(base, a.used + 1);
    Loaded(a.ins + [Instruction(OpCompositeExtract, [g.t.floatType, id, a.id, 0])], id, a.used + 1)
  }

  /** COMPARE_LT: the first lanes of both sources compared into a bool. */
  function CompareLess(g: Tables, temps: map<u32, u32>, endLabel: u32, st: Statement, base: nat): (r: Result<Lowered>)
    ensures r.Ok? ==> r.value.endLabel == endLabel
  {
    match Load(g, temps, st.src1, base)
    case Err(e) => Err(e)
    case Ok(a0) =>
      var a := ExtractX(g, a0, base);
      match Load(g, temps, st.src2, base + a.used)
      case Err(e) => Err(e)
      case Ok(b0) =>
        var b := ExtractX(g, b0, base + a.used);
        var n := a.used + b.used + 1;
        var id := NthId(base, n);
        match Store(g, temps, st.dst, id, base + n)
        case Err(e) => Err(e)
        case Ok(s) => Ok(Lowered(a.ins + b.ins + [Instruction(OpFOrdLessThan, [g.t.boolType, id, a.id, b.id])] + s.ins, s.temps, endLabel, n + s.used))
  }

  /** LOAD from a runtime-array uniform: element `src2.x` of the block member, widened to a
    * uint4 with zero lanes. The array symbol's own id is the access chain. */
  function LoadArrayElement(g: Tables, temps: map<u32, u32>, endLabel: u32, st: Statement, base: nat): (r: Result<Lowered>)
    ensures r.Ok? ==> r.value.endLabel == endLabel
  {
    var chain := NthId(base, 1);
    match Load(g, temps, st.src2, base + 1)
    case Err(e) => Err(e)
    case Ok(b) =>
      var temp, index, id := NthId(base, b.used + 2), NthId(base, b.used + 3), NthId(base, b.used + 4);
      var s1 := st.src1.symbol;
      if st.src2.symbol.ty != Int4 then Err(LoadIndexIsNotInt4)
      else if s1.unit !in g.infos then Err(LoadArrayHasNoBlock)
      else
        var info := g.infos[s1.unit];
        var memberIndex := IdOf(info.memberIndices, s1.index);
        if memberIndex !in g.ints then Err(LoadMemberIndexHasNoIntConstant)
        else if 0 !in g.uints then Err(LoadNoUintConstant0)
        else
          var zero := g.uints[0];
          var n := b.used + 4;
          match Store(g, temps, st.dst, id, base + n)
          case Err(e) => Err(e)
          case Ok(s) =>
            Ok(Lowered(b.ins + [
                Instruction(OpCompositeExtract, [g.t.intType, index, b.id, 0]),
                Instruction(OpAccessChain, [g.t.uniformUintPointer, chain, info.variableId, g.ints[memberIndex], index]),
                Instruction(OpLoad, [g.t.uintType, temp, chain]),
                Instruction(OpCompositeConstruct, [g.t.uint4Type, id, temp, zero, zero, zero])] + s.ins,
              s.temps, endLabel, n + s.used))
  }

  /** STORE to an image: `OpImageWrite` of the three loaded sources; nothing is bound. */
  function ImageStore(g: Tables, temps: map<u32, u32>, endLabel: u32, st: Statement, base: nat): (r: Result<Lowered>)
    ensures r.Ok? ==> r.value.endLabel == endLabel
  {
    match Load(g, temps, st.src1, base)
    case Err(e) => Err(e)
    case Ok(a) =>
      match Load(g, temps, st.src2, base + a.used)
      case Err(e) => Err(e)
      case Ok(b) =>
        match Load(g, temps, st.src3, base + a.used + b.used)
        case Err(e) => Err(e)
        case Ok(c) => Ok(Lowered(a.ins + b.ins + c.ins + [Instruction(OpImageWrite, [a.id, b.id, c.id])], temps, endLabel, a.used + b.used + c.used))
  }

  /** The swizzles of the first n sources. */
  function SourceSwizzles(st: Statement, n: nat): seq<Swizzle>
    requires n <= 4
  {
    seq(n, k requires 0 <= k < n => Sources(st)[k].swizzle)
  }

  /** NEWVECTOR2 and NEWVECTOR4: the sources, loaded in order, combined by the shuffles of
    * `NewVectorShuffles`. With two sources one shuffle of the two; with four X sources the two
    * pairs are shuffled first and the results combined. */
  function NewVector(g: Tables, temps: map<u32, u32>, endLabel: u32, st: Statement, base: nat): (r: Result<Lowered>)
    requires st.op == NewVector2 || st.op == NewVector4
    ensures r.Ok? ==> r.value.endLabel == endLabel
  {
    match ResultType(g.t, st.dst.symbol.ty)
    case Err(e) => Err(e)
    case Ok(ty) =>
      match SourceCount(st)
      case Err(e) => Err(e)
      case Ok(count) =>
        if st.op == NewVector2 && count != 2 then Err(Newvector2NeedsTwoSources)
        else if count != 2 && count != 4 then Err(Newvector4NeedsTwoOrFourSources)
        else
          match NewVectorShuffles(st.op, SourceSwizzles(st, count))
          case Err(e) => Err(e)
          case Ok(plan) =>
            match Load(g, temps, st.src1, base)
            case Err(e) => Err(e)
            case Ok(a) =>
              match Load(g, temps, st.src2, base + a.used)
              case Err(e) => Err(e)
              case Ok(b) =>
                if count == 2 then
                  var n := a.used + b.used + 1;
                  var id := NthId(base, n);
                  match Store(g, temps, st.dst, id, base + n)
                  case Err(e) => Err(e)
                  case Ok(s) =>
                    Ok(Lowered(a.ins + b.ins + [Instruction(OpVectorShuffle, [ty, id, a.id, b.id] + Words(plan[0]))] + s.ins,
                      s.temps, endLabel, n + s.used))
                else
                  match Load(g, temps, st.src3, base + a.used + b.used)
                  case Err(e) => Err(e)
                  case Ok(c) =>
                    match Load(g, temps, st.src4, base + a.used + b.used + c.used)
                    case Err(e) => Err(e)
                    case Ok(d) =>
                      var m := a.used + b.used + c.used + d.used;
                      var first, second, id := NthId(base, m + 1), NthId(base, m + 2), NthId(base, m + 3);
                      match Store(g, temps, st.dst, id, base + m + 3)
                      case Err(e) => Err(e)
                      case Ok(s) =>
                        Ok(Lowered(a.ins + b.ins + c.ins + d.ins + [
                            Instruction(OpVectorShuffle, [ty, first, a.id, b.id] + Words(plan[0])),
                            Instruction(OpVectorShuffle, [ty, second, c.id, d.id] + Words(plan[1])),
                            Instruction(OpVectorShuffle, [ty, id, first, second] + Words(plan[2]))] + s.ins,
                          s.temps, endLabel, m + 3 + s.used))
  }

  /** ASSIGN: the loaded source stored to the destination. */
  function AssignValue(g: Tables, temps: map<u32, u32>, endLabel: u32, st: Statement, base: nat): (r: Result<Lowered>)
    ensures r.Ok? ==> r.value.endLabel == endLabel
  {
    match Load(g, temps, st.src1, base)
    case Err(e) => Err(e)
    case Ok(a) =>
      match Store(g, temps, st.dst, a.id, base + a.used)
      case Err(e) => Err(e)
      case Ok(s) => Ok(Lowered(a.ins + s.ins, s.temps, endLabel, a.used + s.used))
  }

  /** IF_BEGIN: no IF may be open. The condition is loaded, a begin and an end label allocated,
    * the selection merge and conditional branch written, and the end label remembered. */
  function IfBeginBlock(g: Tables, temps: map<u32, u32>, endLabel: u32, st: Statement, base: nat): (r: Result<Lowered>)
    ensures r.Ok? ==> endLabel == 0 && (base + r.value.used < U32_LIMIT ==> r.value.endLabel != 0)
  {
    if endLabel != 0 then Err(IfBeginNestedIfsAreNotSupported)
    else
      match Load(g, temps, st.src1, base)
      case Err(e) => Err(e)
      case Ok(c) =>
        var begin, end := NthId(base, c.used + 1), NthId(base, c.used + 2);
        Ok(Lowered(c.ins + [
            Instruction(OpSelectionMerge, [end, SelectionControlMaskNone]),
            Instruction(OpBranchConditional, [c.id, begin, end]),
            Instruction(OpLabel, [begin])], temps, end, c.used + 2))
  }

  /** IF_END: an IF must be open; it branches to its end label, starts it, and closes the IF. */
  function IfEndBlock(temps: map<u32, u32>, endLabel: u32): (r: Result<Lowered>)
    ensures r.Ok? <==> endLabel != 0
    ensures r.Ok? ==> r.value == Lowered([Instruction(OpBranch, [endLabel]), Instruction(OpLabel, [endLabel])], temps, 0, 0)
  {
    if endLabel == 0 then Err(IfEndNoOpenIf)
    else Ok(Lowered([Instruction(OpBranch, [endLabel]), Instruction(OpLabel, [endLabel])], temps, 0, 0))
  }

  /** The statement switch of `Generate`. Any operation without a case (among them RETURN,
    * SUBTRACT, MIN and the atomics) is a contract violation. */
  function Lower(g: Tables, temps: map<u32, u32>, endLabel: u32, st: Statement, base: nat): (r: Result<Lowered>)
    ensures r.Ok? ==> EndLabelRule(st, endLabel, base, r.value)
  {
    var t := g.t;
    var ty1, ty2 := st.src1.symbol.ty, st.src2.symbol.ty;
    match st.op
    case Add => Binary(g, temps, endLabel, st, OpFAdd, t.float4Type, base)
    case Multiply =>
      if ty1 == Matrix && ty2 == Float4 then Binary(g, temps, endLabel, st, OpMatrixTimesVector, t.float4Type, base)
      else if ty1 == Float4 && ty2 == Float4 then Binary(g, temps, endLabel, st, OpFMul, t.float4Type, base)
      else Err(MultiplyUnsupportedOperandTypes)
    case Divide =>
      if ty1 == Float4 && ty2 == Float4 then Binary(g, temps, endLabel, st, OpFDiv, t.float4Type, base)
      else if ty1 == Int4 && ty2 == Int4 then Binary(g, temps, endLabel, st, OpSDiv, t.int4Type, base)
      else Err(DivideUnsupportedOperandTypes)
    case Modulo =>
      if ty1 == Int4 && ty2 == Int4 then Binary(g, temps, endLabel, st, OpSMod, t.int4Type, base)
      else Err(ModuloOperandsAreNotInt4)
    case And => Binary(g, temps, endLabel, st, OpBitwiseAnd, t.uint4Type, base)
    case Or => Binary(g, temps, endLabel, st, OpBitwiseOr, t.uint4Type, base)
    case LShift => Binary(g, temps, endLabel, st, OpShiftLeftLogical, t.uint4Type, base)
    case RShift => Binary(g, temps, endLabel, st, OpShiftRightLogical, t.uint4Type, base)
    case CompareLt => CompareLess(g, temps, endLabel, st, base)
    case Sample => Binary(g, temps, endLabel, st, OpImageSampleImplicitLod, t.float4Type, base)
    case Load =>
      if ty1 == ArrayUint then LoadArrayElement(g, temps, endLabel, st, base)
      else Binary(g, temps, endLabel, st, OpImageRead, t.uint4Type, base)
    case Store => ImageStore(g, temps, endLabel, st, base)
    case ToFloat =>
      if ty1 == Uint4 then Unary(g, temps, endLabel, st, OpConvertUToF, t.float4Type, base)
      else Err(TofloatSourceIsNotUint4)
    case ToInt =>
      if ty1 == Float4 then Unary(g, temps, endLabel, st, OpConvertFToS, t.int4Type, base)
      else Err(TointSourceIsNotFloat4)
    case ToUint =>
      if ty1 == Float4 then Unary(g, temps, endLabel, st, OpConvertFToU, t.uint4Type, base)
      else Err(TouintSourceIsNotFloat4)
    case NewVector2 => NewVector(g, temps, endLabel, st, base)
    case NewVector4 => NewVector(g, temps, endLabel, st, base)
    case Assign => AssignValue(g, temps, endLabel, st, base)
    case InvocationInterlockBegin => Ok(Lowered([Instruction(OpBeginInvocationInterlockEXT, [])], temps, endLabel, 0))
    case InvocationInterlockEnd => Ok(Lowered([Instruction(OpEndInvocationInterlockEXT, [])], temps, endLabel, 0))
    case IfBegin => IfBeginBlock(g, temps, endLabel, st, base)
    case IfEnd => IfEndBlock(temps, endLabel)
    case _ => Err(GenerateUnsupportedStatement)
  }

  /** A statement lowering: bindings, end label, statement and ids handed out to what it writes. */
  type Lowering = (Tables, map<u32, u32>, u32, Statement, nat) -> Result<Lowered>

  /** A lowered prefix followed by the lowering of one more statement. */
  function Then(prev: Lowered, r: Result<Lowered>): Result<Lowered>
  {
    match r
    case Err(e) => Err(e)
    case Ok(next) => Ok(Lowered(prev.ins + next.ins, next.temps, next.endLabel, prev.used + next.used))
  }

  /** The main function body after the first n statements, each lowered by f, from bindings
    * `temps`, no open IF and `base` ids handed out. */
  function LowerWith(f: Lowering, g: Tables, temps: map<u32, u32>, base: nat, n: nat): Result<Lowered>
    requires n <= |g.p.statements|
  {
    if n == 0 then Ok(Lowered([], temps, 0, 0))
    else
      match LowerWith(f, g, temps, base, n - 1)
      case Err(e) => Err(e)
      case Ok(prev) => Then(prev, f(g, prev.temps, prev.endLabel, g.p.statements[n - 1], base + prev.used))
  }

  /** The main function body the statement switch of `Generate` writes for the first n
    * statements. */
  function LowerAll(g: Tables, temps: map<u32, u32>, base: nat, n: nat): Result<Lowered>
    requires n <= |g.p.statements|
  {
    LowerWith(Lower, g, temps, base, n)
  }

  /** One more statement extends a lowered prefix by its own lowering. */
  lemma LowerWithStep(f: Lowering, g: Tables, temps: map<u32, u32>, base: nat, n: nat, prev: Lowered, r: Result<Lowered>)
    requires 0 < n <= |g.p.statements|
    requires LowerWith(f, g, temps, base, n - 1) == Ok(prev)
    requires r == f(g, prev.temps, prev.endLabel, g.p.statements[n - 1], base + prev.used)
    ensures LowerWith(f, g, temps, base, n) == Then(prev, r)
  {
  }

  /** Once a prefix fails to lower, every longer prefix fails with the same error. */
  lemma {:induction false} LowerWithFails(f: Lowering, g: Tables, temps: map<u32, u32>, base: nat, i: nat, n: nat)
    requires i <= n <= |g.p.statements|
    requires LowerWith(f, g, temps, base, i).Err?
    ensures LowerWith(f, g, temps, base, n) == LowerWith(f, g, temps, base, i)
    decreases n - i
  {
    if i < n {
      LowerWithFails(f, g, temps, base, i, n - 1);
    }
  }

  /** `LowerWithStep` for the generator's statement switch. */
  lemma LowerAllStep(g: Tables, temps: map<u32, u32>, base: nat, n: nat, prev: Lowered, r: Result<Lowered>)
    requires 0 < n <= |g.p.statements|
    requires LowerAll(g, temps, base, n - 1) == Ok(prev)
    requires r == Lower(g, prev.temps, prev.endLabel, g.p.statements[n - 1], base + prev.used)
    ensures LowerAll(g, temps, base, n) == Then(prev, r)
  {
    LowerWithStep(Lower, g, temps, base, n, prev, r);
  }

  /** Whether an IF is open after a statement with operation op, given whether one was open
    * before it; a nested IF_BEGIN or an IF_END without an open IF is a violation. */
  function IfStep(open: bool, op: Op): Result<bool>
  {
    if op == IfBegin then (if open then Err(NestedIf) else Ok(true))
    else if op == IfEnd then (if open then Ok(false) else Err(IfEndWithoutBegin))
    else Ok(open)
  }

  /** Whether an IF is open after the first n statements. */
  function IfScan(stmts: seq<Statement>, n: nat): Result<bool>
    requires n <= |stmts|
  {
    if n == 0 then Ok(false)
    else
      match IfScan(stmts, n - 1)
      case Err(e) => Err(e)
      case Ok(open) => IfStep(open, stmts[n - 1].op)
  }

  /** How the lowering of one statement moves the pending end label: IF_BEGIN needs no open IF and
    * leaves a fresh end label pending (not the empty id while the id counter does not wrap), IF_END needs an open IF and closes it, no other statement
    * touches it. */
  predicate EndLabelRule(st: Statement, endLabel: u32, base: nat, r: Lowered)
  {
    && (st.op == IfBegin ==> endLabel == 0 && (base + r.used < U32_LIMIT ==> r.endLabel != 0))
    && (st.op == IfEnd ==> endLabel != 0 && r.endLabel == 0)
    && (st.op != IfBegin && st.op != IfEnd ==> r.endLabel == endLabel)
  }

  /** A statement that moves the end label by `EndLabelRule` without wrapping the id counter
    * moves it as `IfStep` moves the open IF. */
  lemma EndLabelFollowsIfs(open: bool, endLabel: u32, st: Statement, base: nat, r: Lowered)
    requires EndLabelRule(st, endLabel, base, r)
    requires open <==> endLabel != 0
    requires base + r.used < U32_LIMIT
    ensures IfStep(open, st.op).Ok?
    ensures IfStep(open, st.op).value <==> r.endLabel != 0
  {
  }

  /** After the first n statements the end label is pending exactly while an IF is open, and
    * the IFs so far are well formed. */
  predicate IfsTracked(stmts: seq<Statement>, n: nat, endLabel: u32)
    requires n <= |stmts|
  {
    IfScan(stmts, n).Ok? && (IfScan(stmts, n).value <==> endLabel != 0)
  }

  /** A statement lowered by `EndLabelRule` without wrapping the id counter keeps the end label
    * tracking the IF structure. */
  lemma IfsTrackedStep(stmts: seq<Statement>, n: nat, prevLabel: u32, base: nat, next: Lowered)
    requires 0 < n <= |stmts|
    requires IfsTracked(stmts, n - 1, prevLabel)
    requires EndLabelRule(stmts[n - 1], prevLabel, base, next)
    requires base + next.used < U32_LIMIT
    ensures IfsTracked(stmts, n, next.endLabel)
  {
    EndLabelFollowsIfs(IfScan(stmts, n - 1).value, prevLabel, stmts[n - 1], base, next);
  }
}

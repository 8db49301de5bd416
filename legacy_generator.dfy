/** The earlier `CSpirvShaderGenerator` (src/SpirvShaderGenerator.cpp and
  * include/SpirvShaderGenerator.h): a vertex or fragment shader made of Float4 copies from inputs
  * to outputs, written as a SPIR-V module. The ids are drawn from one counter in a fixed order:
  * nine type ids, the input pointers, the output pointers, then the per-vertex variable, the zero
  * constant, the main function and its label; each statement then draws its own. */
module LegacySpirv {
  import opened Wrappers
  import opened Swizzle
  import opened Ir
  import opened ShaderProgram
  import opened Spv
  import opened SpirvEncoding
  import opened SpirvPasses
  import SpirvSupport
  import SpirvModule

  // ----- failure messages (the source asserts; the model stops with one of these) -----

  const PointerIsNotFloat4: string := "AllocatePointerIds: symbol is not Float4"
  const PointerAllocatedTwice: string := "AllocatePointerIds: index allocated twice"
  const PointerMissing: string := "Decorate/Declare: no pointer id for the symbol"
  const AssignOnly: string := "Generate: only ASSIGN statements are supported"
  const SourceNotXyzw: string := "Generate: the source swizzle is not XYZW"
  const SourceNotInput: string := "Generate: the source is not an input"
  const DestinationNotOutput: string := "Generate: the destination is not an output"
  const UnsupportedSemantic: string := "Generate: unsupported output semantic"

  /** The version word the module's header carries: SPIR-V 1.0. */
  const LegacyVersion: u32 := 0x0001_0000

  /** `SHADER_TYPE`: the two stages this generator knows. */
  datatype Stage = Vertex | Fragment

  /** The stage as the newer generator's shader type (for the entry point's execution model). */
  function Shader(t: Stage): SpirvSupport.ShaderType
  {
    match t
    case Vertex => SpirvSupport.VertexShader
    case Fragment => SpirvSupport.FragmentShader
  }

  /** Which of the two pointer maps a pass walks. */
  datatype Side = InputSide | OutputSide

  /** The two passes written over the symbols after allocation: `OpDecorate ... Location` and
    * `OpVariable` with the side's pointer type. */
  datatype PassKind = Decorate | Declare(pointerType: u32)

  /** The ids `Generate` draws before writing anything: nine types, then (after the pointers)
    * the per-vertex variable, the zero constant, the main function and its label. */
  datatype LegacyIds = LegacyIds(
    void: u32, mainFunctionType: u32, float: u32, float4: u32, int32: u32, perVertexStruct: u32,
    inputFloat4Pointer: u32, outputFloat4Pointer: u32, outputPerVertexStructPointer: u32,
    outputPerVertexVariable: u32, int32Zero: u32, mainFunction: u32, mainLabel: u32)

  /** The ids of a program with `nIn` input pointers and `nOut` output pointers: the counter
    * starts at 1, so the types get 1 to 9, the pointers the next `nIn + nOut`, and the four
    * remaining ids follow (all modulo 2^32). */
  function IdsFor(nIn: nat, nOut: nat): LegacyIds
  {
    LegacyIds(1, 2, 3, 4, 5, 6, 7, 8, 9,
      ToU32(10 + nIn + nOut), ToU32(11 + nIn + nOut), ToU32(12 + nIn + nOut), ToU32(13 + nIn + nOut))
  }

  // ----- the pointer passes -----

  /** Whether a pass takes symbol `s`, and the location it decorates it with. Inputs are taken
    * with their index as location. Outputs need a recorded semantic; the position is skipped
    * (it is written through the per-vertex block), the others are located by semantic index. */
  function Selection(p: Program, side: Side, s: Symbol): (r: Result<Option<u32>>)
    ensures side == InputSide ==> r == Ok(if s.location == Input then Some(s.index) else None)
    ensures side == OutputSide ==>
      (r.Ok? <==> s.location != Output || s.index in p.outputSemantics)
    ensures side == OutputSide && r.Ok? && r.value.Some? ==>
      s.location == Output && p.outputSemantics[s.index].semantic != SystemPosition
      && r.value.value == p.outputSemantics[s.index].index
    ensures side == OutputSide && r.Ok? && r.value.None? ==>
      s.location != Output || p.outputSemantics[s.index].semantic == SystemPosition
  {
    match side
    case InputSide => Ok(if s.location == Input then Some(s.index) else None)
    case OutputSide =>
      if s.location != Output then Ok(None)
      else
        var semantic :- GetOutputSemantic(p, s);
        Ok(if semantic.semantic == SystemPosition then None else Some(semantic.index))
  }

  /** `AllocateInputPointerIds` / `AllocateOutputPointerIds` over the first `n` symbols: the
    * indices of the symbols taken, in symbol order. A taken symbol that is not Float4, or whose
    * index was taken already, is a contract violation. */
  function AllocKeys(p: Program, side: Side, n: nat): Result<seq<u32>>
    requires n <= |p.symbols|
  {
    if n == 0 then Ok([])
    else
      var keys :- AllocKeys(p, side, n - 1);
      var s := p.symbols[n - 1];
      var taken :- Selection(p, side, s);
      if taken.None? then Ok(keys)
      else if s.ty != Float4 then Err(PointerIsNotFloat4)
      else if s.index in keys then Err(PointerAllocatedTwice)
      else Ok(keys + [s.index])
  }

  /** Where `k` first occurs in `keys` (`|keys|` when it does not). */
  function IndexOf(keys: seq<u32>, k: u32): nat
  {
    if keys == [] || keys[0] == k then 0 else 1 + IndexOf(keys[1..], k)
  }

  /** The pointer map the allocation loop builds: key `keys[j]` gets the `j`-th id drawn after
    * `base` ids were issued. */
  function IdMap(keys: seq<u32>, base: nat): map<u32, u32>
  {
    map k | k in keys :: ToU32(base + 1 + IndexOf(keys, k))
  }

  /** The instruction a pass writes for a taken symbol with pointer `id` and location word
    * `location`. */
  function PassInstruction(side: Side, kind: PassKind, id: u32, location: u32): Instruction
  {
    match kind
    case Decorate => Instruction(OpDecorate, [id, DecorationLocation, location])
    case Declare(pointerType) =>
      Instruction(OpVariable, [pointerType, id, if side == InputSide then StorageClassInput else StorageClassOutput])
  }

  /** `Decorate...PointerIds` / `Declare...PointerIds` over the first `n` symbols: one instruction
    * per taken symbol, in symbol order; a taken symbol without a pointer id is a contract
    * violation. */
  function PassWrites(p: Program, side: Side, ids: map<u32, u32>, kind: PassKind, n: nat): Result<seq<Instruction>>
    requires n <= |p.symbols|
  {
    if n == 0 then Ok([])
    else
      var written :- PassWrites(p, side, ids, kind, n - 1);
      var s := p.symbols[n - 1];
      var taken :- Selection(p, side, s);
      if taken.None? then Ok(written)
      else if s.index !in ids then Err(PointerMissing)
      else Ok(written + [PassInstruction(side, kind, ids[s.index], taken.value)])
  }

  // ----- the fixed parts -----

  /** Capability, memory model, entry point (inputs by key, then the per-vertex variable of a
    * vertex shader and the outputs by key) and, for a fragment shader, the upper-left origin. */
  function Preamble(t: Stage, ids: LegacyIds, inIds: map<u32, u32>, outIds: map<u32, u32>): seq<Instruction>
  {
    Capabilities + [SpirvModule.EntryPoint(Shader(t), ids.mainFunction, SpirvSupport.ValuesByKey(inIds), EntryOutputs(t, ids, outIds))]
    + ExecutionModes(t, ids)
  }

  /** The shader capability and the logical GLSL450 memory model. */
  const Capabilities: seq<Instruction> :=
    [Instruction(OpCapability, [CapabilityShader]), Instruction(OpMemoryModel, [AddressingModelLogical, MemoryModelGLSL450])]

  /** A fragment shader's origin is the upper left corner. */
  function ExecutionModes(t: Stage, ids: LegacyIds): seq<Instruction>
  {
    if t == Fragment then [Instruction(OpExecutionMode, [ids.mainFunction, ExecutionModeOriginUpperLeft])] else []
  }

  /** The entry point's output interface. */
  function EntryOutputs(t: Stage, ids: LegacyIds, outIds: map<u32, u32>): seq<u32>
  {
    (if t == Vertex then [ids.outputPerVertexVariable] else []) + SpirvSupport.ValuesByKey(outIds)
  }

  /** A vertex shader's per-vertex block: member 0 is the position, member 1 the point size. */
  function Annotations(t: Stage, ids: LegacyIds): seq<Instruction>
  {
    if t == Fragment then []
    else
      [ Instruction(OpMemberDecorate, [ids.perVertexStruct, 0, DecorationBuiltIn, BuiltInPosition]),
        Instruction(OpMemberDecorate, [ids.perVertexStruct, 1, DecorationBuiltIn, BuiltInPointSize]),
        Instruction(OpDecorate, [ids.perVertexStruct, DecorationBlock]) ]
  }

  /** The types, in the order `Generate` writes them. */
  function Types(t: Stage, ids: LegacyIds): seq<Instruction>
  {
    ScalarTypes(ids) + CompositeTypes(t, ids)
  }

  /** void, the main function's type, a 32-bit float, its 4-vector and a signed 32-bit int. */
  function ScalarTypes(ids: LegacyIds): seq<Instruction>
  {
    [ Instruction(OpTypeVoid, [ids.void]),
      Instruction(OpTypeFunction, [ids.mainFunctionType, ids.void]),
      Instruction(OpTypeFloat, [ids.float, 32]),
      Instruction(OpTypeVector, [ids.float4, ids.float, 4]),
      Instruction(OpTypeInt, [ids.int32, 32, 1]) ]
  }

  /** The per-vertex struct (position, point size) and the pointers to Float4 inputs and outputs
    * and, in a vertex shader, to the per-vertex struct. */
  function CompositeTypes(t: Stage, ids: LegacyIds): seq<Instruction>
  {
    [ Instruction(OpTypeStruct, [ids.perVertexStruct, ids.float4, ids.float]),
      Instruction(OpTypePointer, [ids.inputFloat4Pointer, StorageClassInput, ids.float4]),
      Instruction(OpTypePointer, [ids.outputFloat4Pointer, StorageClassOutput, ids.float4]) ]
    + (if t == Vertex then [Instruction(OpTypePointer, [ids.outputPerVertexStructPointer, StorageClassOutput, ids.perVertexStruct])] else [])
  }

  /** The per-vertex variable (vertex shaders), the zero index constant and the head of main. */
  function Globals(t: Stage, ids: LegacyIds): seq<Instruction>
  {
    (if t == Vertex then [Instruction(OpVariable, [ids.outputPerVertexStructPointer, ids.outputPerVertexVariable, StorageClassOutput])] else [])
    + [ Instruction(OpConstant, [ids.int32, ids.int32Zero, 0]),
        Instruction(OpFunction, [ids.void, ids.mainFunction, FunctionControlMaskNone, ids.mainFunctionType]),
        Instruction(OpLabel, [ids.mainLabel]) ]
  }

  const Epilogue: seq<Instruction> := [Instruction(OpReturn, []), Instruction(OpFunctionEnd, [])]

  // ----- statements -----

  /** What the statements wrote, and how many ids were issued after them. */
  datatype Lowered = Lowered(ins: seq<Instruction>, issued: nat)

  /** The ASSIGN case of `Generate`, after `issued` ids: a temporary id, a load of the whole input
    * into it and a store of it to the output, through a fresh access chain into member 0 of the
    * per-vertex block for the position. Any other statement, swizzle, source or destination is a
    * contract violation. */
  function LowerStatement(p: Program, ids: LegacyIds, inIds: map<u32, u32>, outIds: map<u32, u32>,
                          s: Statement, issued: nat): Result<Lowered>
  {
    var temp := ToU32(issued + 1);
    if s.op != Assign then Err(AssignOnly)
    else if s.src1.swizzle != XYZW then Err(SourceNotXyzw)
    else if s.src1.symbol.location != Input || s.src1.symbol.index !in inIds then Err(SourceNotInput)
    else
      var load := Instruction(OpLoad, [ids.float4, temp, inIds[s.src1.symbol.index]]);
      if s.dst.symbol.location != Output then Err(DestinationNotOutput)
      else
        var semantic :- GetOutputSemantic(p, s.dst.symbol);
        if semantic.semantic == SystemPosition then
          var pointer := ToU32(issued + 2);
          Ok(Lowered([load,
                      Instruction(OpAccessChain, [ids.outputFloat4Pointer, pointer, ids.outputPerVertexVariable, ids.int32Zero]),
                      Instruction(OpStore, [pointer, temp])], issued + 2))
        else if semantic.semantic == TexCoord || semantic.semantic == SystemColor then
          if s.dst.symbol.index !in outIds then Err(PointerMissing)
          else Ok(Lowered([load, Instruction(OpStore, [outIds[s.dst.symbol.index], temp])], issued + 1))
        else Err(UnsupportedSemantic)
  }

  /** What one statement lowers to: it is lowered exactly when it is an ASSIGN of a whole input
    * with a pointer to an output with a recorded semantic that is the position, or a texture
    * coordinate or colour with a pointer; then it loads the input into the next id and stores
    * that id to the output's pointer, or to a fresh access chain into member 0 of the per-vertex
    * block for the position. */
  lemma LowerStatementMeaning(p: Program, ids: LegacyIds, inIds: map<u32, u32>, outIds: map<u32, u32>,
                              s: Statement, issued: nat)
    ensures LowerStatement(p, ids, inIds, outIds, s, issued).Ok? <==>
      && s.op == Assign && s.src1.swizzle == XYZW
      && s.src1.symbol.location == Input && s.src1.symbol.index in inIds
      && s.dst.symbol.location == Output && s.dst.symbol.index in p.outputSemantics
      && var semantic := p.outputSemantics[s.dst.symbol.index].semantic;
         (semantic == SystemPosition || ((semantic == TexCoord || semantic == SystemColor) && s.dst.symbol.index in outIds))
    ensures LowerStatement(p, ids, inIds, outIds, s, issued).Ok? ==>
      var ins := LowerStatement(p, ids, inIds, outIds, s, issued).value.ins;
      var position := p.outputSemantics[s.dst.symbol.index].semantic == SystemPosition;
      var target := if position then ToU32(issued + 2) else outIds[s.dst.symbol.index];
      && |ins| == (if position then 3 else 2)
      && ins[0] == Instruction(OpLoad, [ids.float4, ToU32(issued + 1), inIds[s.src1.symbol.index]])
      && (position ==> ins[1] == Instruction(OpAccessChain, [ids.outputFloat4Pointer, target, ids.outputPerVertexVariable, ids.int32Zero]))
      && ins[|ins| - 1] == Instruction(OpStore, [target, ToU32(issued + 1)])
      && LowerStatement(p, ids, inIds, outIds, s, issued).value.issued == issued + |ins| - 1
  {
  }

  /** A statement lowering: from a statement and the number of ids issued before it. */
  type StatementLowering = (Statement, nat) -> Result<Lowered>

  /** `LowerStatement` for one program and its ids. */
  function Lowering(p: Program, ids: LegacyIds, inIds: map<u32, u32>, outIds: map<u32, u32>): StatementLowering
  {
    (s: Statement, issued: nat) => LowerStatement(p, ids, inIds, outIds, s, issued)
  }

  /** The first `n` statements, lowered one after the other by `lower` from `base` issued ids. */
  function LowerWith(lower: StatementLowering, statements: seq<Statement>, base: nat, n: nat): Result<Lowered>
    requires n <= |statements|
  {
    if n == 0 then Ok(Lowered([], base))
    else
      var before :- LowerWith(lower, statements, base, n - 1);
      var next :- lower(statements[n - 1], before.issued);
      Ok(Lowered(before.ins + next.ins, next.issued))
  }

  /** The first `n` statements of the program, lowered from `base` issued ids. */
  function LowerAll(p: Program, ids: LegacyIds, inIds: map<u32, u32>, outIds: map<u32, u32>,
                    base: nat, n: nat): Result<Lowered>
    requires n <= |p.statements|
  {
    LowerWith(Lowering(p, ids, inIds, outIds), p.statements, base, n)
  }

  // ----- the module -----

  /** A generated module: its instructions and the bound patched into its header. */
  datatype Generated = Generated(instrs: seq<Instruction>, bound: u32)

  /** The words of a generated module: magic number, version, generator 0, the bound, schema 0,
    * then the instructions. */
  function ModuleWords(g: Generated): (ws: seq<Word>)
    ensures |ws| >= 5 && ws[3] == g.bound && ws[5..] == EncodeAll(g.instrs)
  {
    [MagicNumber, LegacyVersion, 0, g.bound, 0] + EncodeAll(g.instrs)
  }

  /** `stream` is the module made of the instructions `declared`, the statements' instructions and
    * the end of main, with the bound one more than the ids issued, modulo 2^32. */
  predicate WritesModule(stream: seq<Word>, declared: seq<Instruction>, body: Lowered)
  {
    stream == ModuleWords(Generated(declared + body.ins + Epilogue, ToU32(1 + body.issued)))
  }

  /** Everything before the statements: preamble, per-vertex annotations, the input and output
    * decorations, the types, the input and output variables, the zero constant and the head of
    * main. */
  function Declarations(p: Program, t: Stage, ids: LegacyIds, inIds: map<u32, u32>, outIds: map<u32, u32>): Result<seq<Instruction>>
  {
    var head :- Decorations(p, t, ids, inIds, outIds);
    var tail :- Variables(p, t, ids, inIds, outIds);
    Ok(head + tail)
  }

  /** The preamble and the annotations: the per-vertex block's, then the inputs' and outputs'
    * locations. */
  function Decorations(p: Program, t: Stage, ids: LegacyIds, inIds: map<u32, u32>, outIds: map<u32, u32>): Result<seq<Instruction>>
  {
    var inDecorations :- PassWrites(p, InputSide, inIds, Decorate, |p.symbols|);
    var outDecorations :- PassWrites(p, OutputSide, outIds, Decorate, |p.symbols|);
    Ok(Preamble(t, ids, inIds, outIds) + Annotations(t, ids) + inDecorations + outDecorations)
  }

  /** The types, the input and output variables, then the globals and the head of main. */
  function Variables(p: Program, t: Stage, ids: LegacyIds, inIds: map<u32, u32>, outIds: map<u32, u32>): Result<seq<Instruction>>
  {
    var inVariables :- PassWrites(p, InputSide, inIds, Declare(ids.inputFloat4Pointer), |p.symbols|);
    var outVariables :- PassWrites(p, OutputSide, outIds, Declare(ids.outputFloat4Pointer), |p.symbols|);
    Ok(Types(t, ids) + inVariables + outVariables + Globals(t, ids))
  }

  // ----- the generator -----

  class LegacyShaderGenerator {
    const program: Program
    const stage: Stage

    /** `m_outputStream`: the words written so far. */
    var stream: seq<Word>
    /** The instructions written after the five header words. */
    ghost var instrs: seq<Instruction>
    /** `m_nextId`, and the number of ids `AllocateId` has handed out (a count the model keeps
      * beside it: the statement lowering numbers its ids from it). */
    var nextId: u32
    var issued: nat
    var inputFloat4PointerTypeId: u32
    var outputFloat4PointerTypeId: u32
    var inputPointerIds: map<u32, u32>
    var outputPointerIds: map<u32, u32>

    /** The stream holds the header with a zero bound, then the encoded instructions. */
    ghost predicate Emitted()
      reads this`stream, this`instrs
    {
      && |stream| >= 5
      && stream[..5] == [MagicNumber, LegacyVersion, 0, 0, 0]
      && stream[5..] == EncodeAll(instrs)
    }

    /** `m_nextId` is one more than the number of ids handed out, modulo 2^32. */
    ghost predicate Counting()
      reads this`nextId, this`issued
    {
      nextId == ToU32(1 + issued)
    }

    ghost predicate Fresh()
      reads this
    {
      && stream == [] && instrs == [] && nextId == 1 && issued == 0
      && inputPointerIds == map[] && outputPointerIds == map[]
    }

    constructor(p: Program, t: Stage)
      ensures program == p && stage == t && Fresh()
    {
      program := p;
      stage := t;
      stream := [];
      instrs := [];
      nextId := 1;
      issued := 0;
      inputFloat4PointerTypeId := 0;
      outputFloat4PointerTypeId := 0;
      inputPointerIds := map[];
      outputPointerIds := map[];
    }

    /** `Write32`: one word at the end of the stream. */
    method Write32(value: Word)
      modifies this`stream
      ensures stream == old(stream) + [value]
    {
      stream := stream + [value];
    }

    /** `AllocateId`: the current counter value; the counter moves on, wrapping at 2^32. */
    method AllocateId() returns (id: u32)
      requires Counting()
      modifies this`nextId, this`issued
      ensures Counting() && issued == old(issued) + 1
      ensures id == old(nextId) && id == ToU32(issued)
    {
      id := nextId;
      ToU32Add(1 + issued, 1);
      nextId := ToU32(nextId + 1);
      issued := issued + 1;
    }

    /** `WriteOp`: the header word (word count and opcode), then the converted parameters. */
    method WriteOp(op: Opcode, params: seq<Param>)
      requires Emitted() && ValidParams(params)
      modifies this`stream, this`instrs
      ensures Emitted()
      ensures instrs == old(instrs) + [Instruction(op, ConvertParams(params))]
    {
      var instruction := Instruction(op, ConvertParams(params));
      EncodeAllAppend(instrs, instruction);
      ghost var before := stream;
      stream := stream + Encode(instruction);
      assert stream[..5] == before[..5];
      assert stream[5..] == before[5..] + Encode(instruction);
      instrs := instrs + [instruction];
    }

    /** `WriteOp` with parameters that are ids, literal numbers or enumerants, one word each. */
    method Emit(instruction: Instruction)
      requires Emitted()
      modifies this`stream, this`instrs
      ensures Emitted()
      ensures instrs == old(instrs) + [instruction]
    {
      NumsConvert(instruction.operands);
      WriteOp(instruction.opcode, Nums(instruction.operands));
    }

    /** The loop of `AllocateInputPointerIds` / `AllocateOutputPointerIds`: a fresh id for each
      * symbol the side takes, keyed by its index. */
    method AllocatePointerIds(side: Side) returns (ids: map<u32, u32>, r: Outcome, ghost keys: seq<u32>)
      requires Counting()
      modifies this`nextId, this`issued
      ensures Counting()
      ensures r.Pass? <==> AllocKeys(program, side, |program.symbols|).Ok?
      ensures r.Pass? ==> && keys == AllocKeys(program, side, |program.symbols|).value
                          && ids == IdMap(keys, old(issued)) && issued == old(issued) + |keys|
    {
      ids, r, keys := map[], Pass, [];
      var i := 0;
      while i < |program.symbols| && r.Pass?
        invariant 0 <= i <= |program.symbols| && Counting()
        invariant r.Pass? ==> && AllocKeys(program, side, i) == Ok(keys)
                              && ids == IdMap(keys, old(issued)) && issued == old(issued) + |keys|
        invariant r.Fail? ==> AllocKeys(program, side, i).Err?
      {
        ids, r, keys := AllocatePointerId(side, i, ids, keys, old(issued));
        i := i + 1;
      }
      if r.Fail? {
        AllocKeysErr(program, side, i, |program.symbols|);
      }
    }

    /** One step of that loop: symbol `i` gets a fresh id if the side takes it. */
    method AllocatePointerId(side: Side, i: nat, ids: map<u32, u32>, ghost keys: seq<u32>, ghost base: nat)
      returns (ids': map<u32, u32>, r: Outcome, ghost keys': seq<u32>)
      requires i < |program.symbols| && Counting()
      requires AllocKeys(program, side, i) == Ok(keys) && ids == IdMap(keys, base) && issued == base + |keys|
      modifies this`nextId, this`issued
      ensures Counting()
      ensures r.Pass? <==> AllocKeys(program, side, i + 1).Ok?
      ensures r.Pass? ==> && AllocKeys(program, side, i + 1) == Ok(keys')
                          && ids' == IdMap(keys', base) && issued == base + |keys'|
    {
      ids', r, keys' := ids, Pass, keys;
      var s := program.symbols[i];
      var taken := Selection(program, side, s);
      if taken.Err? {
        r := Fail(taken.error);
      } else if taken.value.Some? {
        if s.ty != Float4 {
          r := Fail(PointerIsNotFloat4);
        } else if s.index in ids {
          r := Fail(PointerAllocatedTwice);
        } else {
          var id := AllocateId();
          IdMapGrow(keys, base, s.index);
          ids' := ids[s.index := id];
          keys' := keys + [s.index];
        }
      }
    }

    /** `AllocateInputPointerIds`. */
    method AllocateInputPointerIds() returns (r: Outcome, ghost keys: seq<u32>)
      requires Counting()
      modifies this`inputPointerIds, this`nextId, this`issued
      ensures Counting()
      ensures r.Pass? <==> AllocKeys(program, InputSide, |program.symbols|).Ok?
      ensures r.Pass? ==> && keys == AllocKeys(program, InputSide, |program.symbols|).value
                          && inputPointerIds == IdMap(keys, old(issued)) && issued == old(issued) + |keys|
    {
      var ids;
      ids, r, keys := AllocatePointerIds(InputSide);
      inputPointerIds := ids;
    }

    /** `AllocateOutputPointerIds`: outputs other than the position. */
    method AllocateOutputPointerIds() returns (r: Outcome, ghost keys: seq<u32>)
      requires Counting()
      modifies this`outputPointerIds, this`nextId, this`issued
      ensures Counting()
      ensures r.Pass? <==> AllocKeys(program, OutputSide, |program.symbols|).Ok?
      ensures r.Pass? ==> && keys == AllocKeys(program, OutputSide, |program.symbols|).value
                          && outputPointerIds == IdMap(keys, old(issued)) && issued == old(issued) + |keys|
    {
      var ids;
      ids, r, keys := AllocatePointerIds(OutputSide);
      outputPointerIds := ids;
    }

    /** The nine type ids, drawn first. */
    method AllocateTypeIds() returns (ids: LegacyIds)
      requires Counting() && issued == 0
      modifies this`nextId, this`issued, this`inputFloat4PointerTypeId, this`outputFloat4PointerTypeId
      ensures Counting() && issued == 9
      ensures ids.void == 1 && ids.mainFunctionType == 2 && ids.float == 3 && ids.float4 == 4 && ids.int32 == 5
      ensures ids.perVertexStruct == 6 && ids.inputFloat4Pointer == 7 && ids.outputFloat4Pointer == 8
      ensures ids.outputPerVertexStructPointer == 9
      ensures inputFloat4PointerTypeId == 7 && outputFloat4PointerTypeId == 8
    {
      var void := AllocateId();
      var mainFunctionType := AllocateId();
      var float := AllocateId();
      var float4 := AllocateId();
      var int32 := AllocateId();
      var perVertexStruct := AllocateId();
      inputFloat4PointerTypeId := AllocateId();
      outputFloat4PointerTypeId := AllocateId();
      var outputPerVertexStructPointer := AllocateId();
      ids := LegacyIds(void, mainFunctionType, float, float4, int32, perVertexStruct,
        inputFloat4PointerTypeId, outputFloat4PointerTypeId, outputPerVertexStructPointer, 0, 0, 0, 0);
    }

    /** The id allocation at the start of `Generate`: the nine types, the input pointers, the
      * output pointers, then the per-vertex variable, the zero constant, main and its label. */
    method AllocateAll() returns (ids: LegacyIds, r: Outcome, ghost inKeys: seq<u32>, ghost outKeys: seq<u32>)
      requires Counting() && issued == 0
      modifies this`nextId, this`issued, this`inputFloat4PointerTypeId, this`outputFloat4PointerTypeId
      modifies this`inputPointerIds, this`outputPointerIds
      ensures Counting()
      ensures r.Pass? <==> AllocKeys(program, InputSide, |program.symbols|).Ok? && AllocKeys(program, OutputSide, |program.symbols|).Ok?
      ensures r.Pass? ==>
        && inKeys == AllocKeys(program, InputSide, |program.symbols|).value
        && outKeys == AllocKeys(program, OutputSide, |program.symbols|).value
        && inputPointerIds == IdMap(inKeys, 9) && outputPointerIds == IdMap(outKeys, 9 + |inKeys|)
        && ids == IdsFor(|inKeys|, |outKeys|) && issued == 13 + |inKeys| + |outKeys|
        && inputFloat4PointerTypeId == ids.inputFloat4Pointer && outputFloat4PointerTypeId == ids.outputFloat4Pointer
    {
      outKeys := [];
      ids := AllocateTypeIds();
      r, inKeys := AllocateInputPointerIds();
      if r.Fail? {
        return;
      }
      r, outKeys := AllocateOutputPointerIds();
      if r.Fail? {
        return;
      }
      ids := AllocateMainIds(ids);
    }

    /** The last four ids: the per-vertex variable, the zero constant, main and its label. */
    method AllocateMainIds(types: LegacyIds) returns (ids: LegacyIds)
      requires Counting()
      modifies this`nextId, this`issued
      ensures Counting() && issued == old(issued) + 4
      ensures ids == types.(outputPerVertexVariable := ToU32(old(issued) + 1), int32Zero := ToU32(old(issued) + 2),
                            mainFunction := ToU32(old(issued) + 3), mainLabel := ToU32(old(issued) + 4))
    {
      var outputPerVertexVariable := AllocateId();
      var int32Zero := AllocateId();
      var mainFunction := AllocateId();
      var mainLabel := AllocateId();
      ids := types.(outputPerVertexVariable := outputPerVertexVariable, int32Zero := int32Zero,
        mainFunction := mainFunction, mainLabel := mainLabel);
    }

    /** The loop of the `Decorate...PointerIds` and `Declare...PointerIds` passes. */
    method WritePass(side: Side, ids: map<u32, u32>, kind: PassKind) returns (r: Outcome)
      requires Emitted()
      modifies this`stream, this`instrs
      ensures Emitted()
      ensures r.Pass? <==> PassWrites(program, side, ids, kind, |program.symbols|).Ok?
      ensures r.Pass? ==> instrs == old(instrs) + PassWrites(program, side, ids, kind, |program.symbols|).value
    {
      r := Pass;
      var syms := program.symbols;
      var i := 0;
      while i < |syms| && r.Pass?
        invariant 0 <= i <= |syms| && Emitted()
        invariant r.Pass? ==> PassWrites(program, side, ids, kind, i).Ok?
                              && instrs == old(instrs) + PassWrites(program, side, ids, kind, i).value
        invariant r.Fail? ==> PassWrites(program, side, ids, kind, i).Err?
      {
        var s := syms[i];
        var taken := Selection(program, side, s);
        if taken.Err? {
          r := Fail(taken.error);
        } else if taken.value.Some? {
          if s.index !in ids {
            r := Fail(PointerMissing);
          } else {
            Emit(PassInstruction(side, kind, ids[s.index], taken.value.value));
          }
        }
        i := i + 1;
      }
      if r.Fail? {
        PassErr(program, side, ids, kind, i, |syms|);
      }
    }

    /** The capability, the memory model, the entry point and the fragment execution mode. */
    method WritePreamble(ids: LegacyIds)
      requires Emitted()
      modifies this`stream, this`instrs
      ensures Emitted()
      ensures instrs == old(instrs) + Preamble(stage, ids, inputPointerIds, outputPointerIds)
    {
      WriteCapabilities();
      WriteEntryPoint(ids);
      if stage == Fragment {
        Emit(Instruction(OpExecutionMode, [ids.mainFunction, ExecutionModeOriginUpperLeft]));
      }
    }

    method WriteCapabilities()
      requires Emitted()
      modifies this`stream, this`instrs
      ensures Emitted()
      ensures instrs == old(instrs) + Capabilities
    {
      Emit(Instruction(OpCapability, [CapabilityShader]));
      Emit(Instruction(OpMemoryModel, [AddressingModelLogical, MemoryModelGLSL450]));
    }

    /** `OpEntryPoint`, its name packed by the string conversion. */
    method WriteEntryPoint(ids: LegacyIds)
      requires Emitted()
      modifies this`stream, this`instrs
      ensures Emitted()
      ensures instrs == old(instrs) + [SpirvModule.EntryPoint(Shader(stage), ids.mainFunction,
        SpirvSupport.ValuesByKey(inputPointerIds), EntryOutputs(stage, ids, outputPointerIds))]
    {
      var inputs := SpirvSupport.ValuesByKey(inputPointerIds);
      var outputs := EntryOutputs(stage, ids, outputPointerIds);
      var params := [EnumValue(SpirvModule.ExecutionModel(Shader(stage))), Num(ids.mainFunction),
        Text(SpirvModule.Ascii(SpirvModule.EntryPointName)), Vector(inputs), Vector(outputs)];
      SpirvModule.EntryPointOperands(Shader(stage), ids.mainFunction, inputs, outputs);
      WriteOp(OpEntryPoint, params);
    }

    /** The per-vertex block's annotations (vertex shaders). */
    method WriteAnnotations(ids: LegacyIds)
      requires Emitted()
      modifies this`stream, this`instrs
      ensures Emitted()
      ensures instrs == old(instrs) + Annotations(stage, ids)
    {
      if stage == Vertex {
        Emit(Instruction(OpMemberDecorate, [ids.perVertexStruct, 0, DecorationBuiltIn, BuiltInPosition]));
        Emit(Instruction(OpMemberDecorate, [ids.perVertexStruct, 1, DecorationBuiltIn, BuiltInPointSize]));
        Emit(Instruction(OpDecorate, [ids.perVertexStruct, DecorationBlock]));
      }
    }

    /** The type declarations. */
    method WriteTypes(ids: LegacyIds)
      requires Emitted()
      modifies this`stream, this`instrs
      ensures Emitted()
      ensures instrs == old(instrs) + Types(stage, ids)
    {
      WriteScalarTypes(ids);
      WriteCompositeTypes(ids);
    }

    method WriteScalarTypes(ids: LegacyIds)
      requires Emitted()
      modifies this`stream, this`instrs
      ensures Emitted()
      ensures instrs == old(instrs) + ScalarTypes(ids)
    {
      Emit(Instruction(OpTypeVoid, [ids.void]));
      Emit(Instruction(OpTypeFunction, [ids.mainFunctionType, ids.void]));
      Emit(Instruction(OpTypeFloat, [ids.float, 32]));
      Emit(Instruction(OpTypeVector, [ids.float4, ids.float, 4]));
      Emit(Instruction(OpTypeInt, [ids.int32, 32, 1]));
    }

    method WriteCompositeTypes(ids: LegacyIds)
      requires Emitted()
      modifies this`stream, this`instrs
      ensures Emitted()
      ensures instrs == old(instrs) + CompositeTypes(stage, ids)
    {
      Emit(Instruction(OpTypeStruct, [ids.perVertexStruct, ids.float4, ids.float]));
      Emit(Instruction(OpTypePointer, [ids.inputFloat4Pointer, StorageClassInput, ids.float4]));
      Emit(Instruction(OpTypePointer, [ids.outputFloat4Pointer, StorageClassOutput, ids.float4]));
      if stage == Vertex {
        Emit(Instruction(OpTypePointer, [ids.outputPerVertexStructPointer, StorageClassOutput, ids.perVertexStruct]));
      }
    }

    /** The per-vertex variable, the zero constant, `OpFunction` and `OpLabel` of main. */
    method WriteGlobals(ids: LegacyIds)
      requires Emitted()
      modifies this`stream, this`instrs
      ensures Emitted()
      ensures instrs == old(instrs) + Globals(stage, ids)
    {
      if stage == Vertex {
        Emit(Instruction(OpVariable, [ids.outputPerVertexStructPointer, ids.outputPerVertexVariable, StorageClassOutput]));
      }
      Emit(Instruction(OpConstant, [ids.int32, ids.int32Zero, 0]));
      Emit(Instruction(OpFunction, [ids.void, ids.mainFunction, FunctionControlMaskNone, ids.mainFunctionType]));
      Emit(Instruction(OpLabel, [ids.mainLabel]));
    }

    /** `DecorateInputPointerIds`: each input's pointer is located by the input's index. */
    method DecorateInputPointerIds() returns (r: Outcome)
      requires Emitted()
      modifies this`stream, this`instrs
      ensures Emitted()
      ensures r.Pass? <==> PassWrites(program, InputSide, inputPointerIds, Decorate, |program.symbols|).Ok?
      ensures r.Pass? ==> instrs == old(instrs) + PassWrites(program, InputSide, inputPointerIds, Decorate, |program.symbols|).value
    {
      r := WritePass(InputSide, inputPointerIds, Decorate);
    }

    /** `DecorateOutputPointerIds`: each output pointer is located by its semantic's index. */
    method DecorateOutputPointerIds() returns (r: Outcome)
      requires Emitted()
      modifies this`stream, this`instrs
      ensures Emitted()
      ensures r.Pass? <==> PassWrites(program, OutputSide, outputPointerIds, Decorate, |program.symbols|).Ok?
      ensures r.Pass? ==> instrs == old(instrs) + PassWrites(program, OutputSide, outputPointerIds, Decorate, |program.symbols|).value
    {
      r := WritePass(OutputSide, outputPointerIds, Decorate);
    }

    /** `DeclareInputPointerIds`: an input variable per input pointer. */
    method DeclareInputPointerIds() returns (r: Outcome)
      requires Emitted()
      modifies this`stream, this`instrs
      ensures Emitted()
      ensures r.Pass? <==> PassWrites(program, InputSide, inputPointerIds, Declare(inputFloat4PointerTypeId), |program.symbols|).Ok?
      ensures r.Pass? ==>
        instrs == old(instrs) + PassWrites(program, InputSide, inputPointerIds, Declare(inputFloat4PointerTypeId), |program.symbols|).value
    {
      r := WritePass(InputSide, inputPointerIds, Declare(inputFloat4PointerTypeId));
    }

    /** `DeclareOutputPointerIds`: an output variable per output pointer. */
    method DeclareOutputPointerIds() returns (r: Outcome)
      requires Emitted()
      modifies this`stream, this`instrs
      ensures Emitted()
      ensures r.Pass? <==> PassWrites(program, OutputSide, outputPointerIds, Declare(outputFloat4PointerTypeId), |program.symbols|).Ok?
      ensures r.Pass? ==>
        instrs == old(instrs) + PassWrites(program, OutputSide, outputPointerIds, Declare(outputFloat4PointerTypeId), |program.symbols|).value
    {
      r := WritePass(OutputSide, outputPointerIds, Declare(outputFloat4PointerTypeId));
    }

    /** `Generate` from the capabilities to the label of main. */
    method WriteDeclarations(ids: LegacyIds, ghost inIds: map<u32, u32>, ghost outIds: map<u32, u32>) returns (r: Outcome)
      requires Emitted()
      requires inputFloat4PointerTypeId == ids.inputFloat4Pointer && outputFloat4PointerTypeId == ids.outputFloat4Pointer
      requires inputPointerIds == inIds && outputPointerIds == outIds
      modifies this`stream, this`instrs
      ensures Emitted()
      ensures r.Pass? <==> Declarations(program, stage, ids, inIds, outIds).Ok?
      ensures r.Pass? ==> instrs == old(instrs) + Declarations(program, stage, ids, inIds, outIds).value
    {
      DeclarationsParts(program, stage, ids, inIds, outIds);
      ghost var before := instrs;
      r := WriteDecorations(ids);
      if r.Fail? {
        return;
      }
      r := WriteVariables(ids);
      if r.Pass? {
        AppendAssociates(before, Decorations(program, stage, ids, inIds, outIds).value,
          Variables(program, stage, ids, inIds, outIds).value);
      }
    }

    /** The preamble, the annotations, then the input and output location decorations. */
    method WriteDecorations(ids: LegacyIds) returns (r: Outcome)
      requires Emitted()
      modifies this`stream, this`instrs
      ensures Emitted()
      ensures r.Pass? <==> Decorations(program, stage, ids, inputPointerIds, outputPointerIds).Ok?
      ensures r.Pass? ==> instrs == old(instrs) + Decorations(program, stage, ids, inputPointerIds, outputPointerIds).value
    {
      WritePreamble(ids);
      WriteAnnotations(ids);
      ghost var inputs := PassWrites(program, InputSide, inputPointerIds, Decorate, |program.symbols|);
      ghost var outputs := PassWrites(program, OutputSide, outputPointerIds, Decorate, |program.symbols|);
      r := DecorateInputPointerIds();
      if r.Fail? {
        return;
      }
      r := DecorateOutputPointerIds();
      if r.Fail? {
        return;
      }
      AppendAssociates4(old(instrs), Preamble(stage, ids, inputPointerIds, outputPointerIds), Annotations(stage, ids),
        inputs.value, outputs.value);
    }

    /** The types, the variables and the globals. */
    method WriteVariables(ids: LegacyIds) returns (r: Outcome)
      requires Emitted()
      requires inputFloat4PointerTypeId == ids.inputFloat4Pointer && outputFloat4PointerTypeId == ids.outputFloat4Pointer
      modifies this`stream, this`instrs
      ensures Emitted()
      ensures r.Pass? <==> Variables(program, stage, ids, inputPointerIds, outputPointerIds).Ok?
      ensures r.Pass? ==> instrs == old(instrs) + Variables(program, stage, ids, inputPointerIds, outputPointerIds).value
    {
      WriteTypes(ids);
      ghost var inputs := PassWrites(program, InputSide, inputPointerIds, Declare(ids.inputFloat4Pointer), |program.symbols|);
      ghost var outputs := PassWrites(program, OutputSide, outputPointerIds, Declare(ids.outputFloat4Pointer), |program.symbols|);
      r := DeclareInputPointerIds();
      if r.Fail? {
        return;
      }
      r := DeclareOutputPointerIds();
      if r.Fail? {
        return;
      }
      WriteGlobals(ids);
      AppendAssociates4(old(instrs), Types(stage, ids), inputs.value, outputs.value, Globals(stage, ids));
    }

    /** The five header words: magic number, version, generator 0, a zero bound (patched at
      * the end) and schema 0. */
    method WriteHeader()
      requires stream == []
      modifies this`stream, this`instrs
      ensures Emitted() && instrs == []
    {
      Write32(MagicNumber);
      Write32(LegacyVersion);
      Write32(0);
      Write32(0);
      Write32(0);
      instrs := [];
    }

    /** The end of main. */
    method WriteEpilogue()
      requires Emitted()
      modifies this`stream, this`instrs
      ensures Emitted()
      ensures instrs == old(instrs) + Epilogue
    {
      Emit(Instruction(OpReturn, []));
      Emit(Instruction(OpFunctionEnd, []));
    }

    /** The bound is patched into word 3 of the header: the counter after the last id. */
    method PatchBound()
      requires Emitted()
      modifies this`stream
      ensures stream == ModuleWords(Generated(instrs, nextId))
    {
      ghost var before := stream;
      stream := stream[3 := nextId];
      assert stream[..5] == [MagicNumber, LegacyVersion, 0, nextId, 0] by {
        assert before[..5] == [MagicNumber, LegacyVersion, 0, 0, 0];
      }
      assert stream == stream[..5] + stream[5..];
    }

    /** The statement loop of `Generate`: each statement is lowered, in order, from the ids
      * issued before it, stopping at the first failure. Nothing is written. The loop is proved
      * for any statement lowering `lower`; `WriteStatements` passes `LowerStatement`. */
    method LowerStatements(lower: StatementLowering) returns (lowered: Result<Lowered>)
      ensures lowered == LowerWith(lower, program.statements, issued, |program.statements|)
    {
      var done := Lowered([], issued);
      var failed := false;
      var error := "";
      var i := 0;
      while i < |program.statements| && !failed
        invariant 0 <= i <= |program.statements|
        invariant !failed ==> LowerWith(lower, program.statements, issued, i) == Ok(done)
        invariant failed ==> LowerWith(lower, program.statements, issued, i) == Err(error)
      {
        LowerWithStep(lower, program.statements, issued, i, done);
        var next := lower(program.statements[i], done.issued);
        if next.Err? {
          failed, error := true, next.error;
        } else {
          done := Lowered(done.ins + next.value.ins, next.value.issued);
        }
        i := i + 1;
      }
      if failed {
        LowerWithErr(lower, program.statements, issued, i, |program.statements|);
        lowered := Err(error);
      } else {
        lowered := Ok(done);
      }
    }

    /** Writes the instructions the statements lowered to; the counter moves on by the ids they
      * were issued. */
    method WriteLowered(l: Lowered)
      requires Emitted() && Counting() && l.issued >= issued
      modifies this`stream, this`instrs, this`nextId, this`issued
      ensures Emitted() && Counting()
      ensures instrs == old(instrs) + l.ins && issued == l.issued
    {
      EncodeAllConcat(instrs, l.ins);
      ghost var before := stream;
      stream := stream + EncodeAll(l.ins);
      assert stream[..5] == before[..5];
      assert stream[5..] == before[5..] + EncodeAll(l.ins);
      instrs := instrs + l.ins;
      ToU32Add(1 + issued, l.issued - issued);
      nextId := ToU32(nextId + (l.issued - issued));
      issued := l.issued;
    }

    /** The statements of main, in order: each ASSIGN loads the input into a fresh id and stores
      * it to the output's pointer. */
    method WriteStatements(ids: LegacyIds, ghost inIds: map<u32, u32>, ghost outIds: map<u32, u32>, ghost base: nat)
      returns (r: Outcome)
      requires Emitted() && Counting()
      requires inputPointerIds == inIds && outputPointerIds == outIds && issued == base
      modifies this`stream, this`instrs, this`nextId, this`issued
      ensures Emitted() && Counting()
      ensures r.Pass? <==> LowerAll(program, ids, inIds, outIds, base, |program.statements|).Ok?
      ensures r.Pass? ==>
        var body := LowerAll(program, ids, inIds, outIds, base, |program.statements|).value;
        instrs == old(instrs) + body.ins && issued == body.issued
    {
      var lowered := LowerStatements(Lowering(program, ids, inputPointerIds, outputPointerIds));
      if lowered.Err? {
        r := Fail(lowered.error);
      } else {
        LowerAllIssued(program, ids, inputPointerIds, outputPointerIds, issued, |program.statements|);
        WriteLowered(lowered.value);
        r := Pass;
      }
    }

    /** `Generate`: the header, the ids, the declarations, main with its statements, then the
      * bound. The pointer keys are the two allocations, inputs first; it succeeds exactly when
      * both allocations, the declarations and the statements do, and the stream is then the
      * module they make, whose bound is one more than the ids issued, modulo 2^32. */
    method Generate() returns (r: Outcome, ids: LegacyIds, ghost inKeys: seq<u32>, ghost outKeys: seq<u32>,
                               ghost inIds: map<u32, u32>, ghost outIds: map<u32, u32>,
                               ghost declared: Result<seq<Instruction>>, ghost body: Result<Lowered>)
      requires Fresh()
      modifies this
      ensures AllocKeys(program, InputSide, |program.symbols|).Ok? && AllocKeys(program, OutputSide, |program.symbols|).Ok? ==>
        && inKeys == AllocKeys(program, InputSide, |program.symbols|).value
        && outKeys == AllocKeys(program, OutputSide, |program.symbols|).value
        && ids == IdsFor(|inKeys|, |outKeys|) && inIds == IdMap(inKeys, 9) && outIds == IdMap(outKeys, 9 + |inKeys|)
        && declared == Declarations(program, stage, ids, inIds, outIds)
        && (declared.Ok? ==> body == LowerAll(program, ids, inIds, outIds, 13 + |inKeys| + |outKeys|, |program.statements|))
      ensures r.Pass? <==>
        && AllocKeys(program, InputSide, |program.symbols|).Ok?
        && AllocKeys(program, OutputSide, |program.symbols|).Ok?
        && declared.Ok? && body.Ok?
      ensures r.Pass? ==> WritesModule(stream, declared.value, body.value)
    {
      r, ids, inKeys, outKeys, inIds, outIds, declared := WriteDeclared();
      body := Err([]);
      if r.Fail? {
        return;
      }
      r, body := WriteMain(ids, inIds, outIds, 13 + |inKeys| + |outKeys|, declared.value);
    }

    /** `Generate` up to the label of main: the header, the ids, then the declarations. */
    method WriteDeclared() returns (r: Outcome, ids: LegacyIds, ghost inKeys: seq<u32>, ghost outKeys: seq<u32>,
                                    ghost inIds: map<u32, u32>, ghost outIds: map<u32, u32>,
                                    ghost declared: Result<seq<Instruction>>)
      requires Fresh()
      modifies this
      ensures Emitted() && Counting()
      ensures AllocKeys(program, InputSide, |program.symbols|).Ok? && AllocKeys(program, OutputSide, |program.symbols|).Ok? ==>
        && inKeys == AllocKeys(program, InputSide, |program.symbols|).value
        && outKeys == AllocKeys(program, OutputSide, |program.symbols|).value
        && ids == IdsFor(|inKeys|, |outKeys|) && inIds == IdMap(inKeys, 9) && outIds == IdMap(outKeys, 9 + |inKeys|)
        && declared == Declarations(program, stage, ids, inIds, outIds)
      ensures r.Pass? <==>
        && AllocKeys(program, InputSide, |program.symbols|).Ok?
        && AllocKeys(program, OutputSide, |program.symbols|).Ok?
        && declared.Ok?
      ensures r.Pass? ==>
        && instrs == declared.value && issued == 13 + |inKeys| + |outKeys|
        && inputPointerIds == inIds && outputPointerIds == outIds
    {
      inIds, outIds, declared := map[], map[], Err([]);
      WriteHeader();
      ids, r, inKeys, outKeys := AllocateAll();
      if r.Fail? {
        return;
      }
      inIds, outIds := IdMap(inKeys, 9), IdMap(outKeys, 9 + |inKeys|);
      r := WriteDeclarations(ids, inIds, outIds);
      declared := Declarations(program, stage, ids, inIds, outIds);
    }

    /** `Generate` from the statements on: the statements, the end of main, then the bound. */
    method WriteMain(ids: LegacyIds, ghost inIds: map<u32, u32>, ghost outIds: map<u32, u32>, ghost base: nat,
                     ghost declared: seq<Instruction>)
      returns (r: Outcome, ghost body: Result<Lowered>)
      requires Emitted() && Counting()
      requires inputPointerIds == inIds && outputPointerIds == outIds && issued == base && instrs == declared
      modifies this`stream, this`instrs, this`nextId, this`issued
      ensures body == LowerAll(program, ids, inIds, outIds, base, |program.statements|)
      ensures r.Pass? <==> body.Ok?
      ensures r.Pass? ==> WritesModule(stream, declared, body.value)
    {
      body := LowerAll(program, ids, inIds, outIds, base, |program.statements|);
      r := WriteStatements(ids, inIds, outIds, base);
      if r.Fail? {
        return;
      }
      WriteEpilogue();
      PatchBound();
    }
  }

  // ----- properties -----

  /** The allocation takes each selected symbol's index once: the keys are distinct, and an index
    * is a key exactly when some symbol among the first `n` is taken with that index. */
  lemma {:induction false} AllocKeysExact(p: Program, side: Side, n: nat)
    requires n <= |p.symbols| && AllocKeys(p, side, n).Ok?
    ensures var keys := AllocKeys(p, side, n).value;
      && (forall a, b :: 0 <= a < b < |keys| ==> keys[a] != keys[b])
      && (forall k :: k in keys <==> exists i :: 0 <= i < n && Taken(p, side, p.symbols[i]) && p.symbols[i].index == k)
  {
    if n > 0 {
      AllocKeysExact(p, side, n - 1);
      var keys := AllocKeys(p, side, n - 1).value;
      var s := p.symbols[n - 1];
      forall k ensures k in AllocKeys(p, side, n).value <==>
        exists i :: 0 <= i < n && Taken(p, side, p.symbols[i]) && p.symbols[i].index == k
      {
        if k in AllocKeys(p, side, n).value && k !in keys {
          assert Taken(p, side, p.symbols[n - 1]) && p.symbols[n - 1].index == k;
        }
        if exists i :: 0 <= i < n && Taken(p, side, p.symbols[i]) && p.symbols[i].index == k {
          var i :| 0 <= i < n && Taken(p, side, p.symbols[i]) && p.symbols[i].index == k;
          if i < n - 1 {
            assert k in keys;
          }
        }
      }
    }
  }

  /** The symbol is taken by the allocation of that side (its selection is a location). */
  predicate Taken(p: Program, side: Side, s: Symbol)
  {
    Selection(p, side, s).Ok? && Selection(p, side, s).value.Some?
  }

  /** A successful allocation took only Float4 symbols, and (outputs) only those whose recorded
    * semantic is not the position. */
  lemma {:induction false} AllocKeysTaken(p: Program, side: Side, n: nat)
    requires n <= |p.symbols| && AllocKeys(p, side, n).Ok?
    ensures forall i :: 0 <= i < n && Taken(p, side, p.symbols[i]) ==> p.symbols[i].ty == Float4
    ensures forall i :: 0 <= i < n ==> Selection(p, side, p.symbols[i]).Ok?
  {
    if n > 0 {
      AllocKeysTaken(p, side, n - 1);
    }
  }

  /** The pointer map has exactly the keys, and for distinct keys the `j`-th key gets the
    * `j`-th id drawn after `base`. */
  lemma {:induction false} IdMapAt(keys: seq<u32>, base: nat)
    requires forall a, b :: 0 <= a < b < |keys| ==> keys[a] != keys[b]
    ensures IdMap(keys, base).Keys == set k | k in keys
    ensures forall j :: 0 <= j < |keys| ==> IdMap(keys, base)[keys[j]] == ToU32(base + 1 + j)
  {
    forall j | 0 <= j < |keys|
      ensures IdMap(keys, base)[keys[j]] == ToU32(base + 1 + j)
    {
      IndexOfAt(keys, j);
    }
  }

  /** In distinct keys, a key first occurs at its own position. */
  lemma {:induction false} IndexOfAt(keys: seq<u32>, j: nat)
    requires j < |keys| && forall a, b :: 0 <= a < b < |keys| ==> keys[a] != keys[b]
    ensures IndexOf(keys, keys[j]) == j
  {
    if j > 0 {
      assert keys[0] != keys[j];
      IndexOfAt(keys[1..], j - 1);
    }
  }

  /** A new key appended to the keys gets the next id; the others keep theirs. */
  lemma IdMapGrow(keys: seq<u32>, base: nat, k: u32)
    requires k !in keys
    ensures IdMap(keys + [k], base) == IdMap(keys, base)[k := ToU32(base + 1 + |keys|)]
  {
    forall x | x in keys
      ensures IndexOf(keys + [k], x) == IndexOf(keys, x)
    {
      IndexOfAppend(keys, k, x);
    }
    IndexOfAppend(keys, k, k);
  }

  /** Appending a key does not move the first occurrence of a key already present, and an
    * absent key first occurs at the end. */
  lemma {:induction false} IndexOfAppend(keys: seq<u32>, k: u32, x: u32)
    requires x in keys || (x == k && k !in keys)
    ensures IndexOf(keys + [k], x) == (if x in keys then IndexOf(keys, x) else |keys|)
  {
    if keys != [] && keys[0] != x {
      assert (keys + [k])[1..] == keys[1..] + [k];
      IndexOfAppend(keys[1..], k, x);
    }
  }

  /** Once the allocation stops at a symbol, it stops for every longer prefix. */
  lemma {:induction false} AllocKeysErr(p: Program, side: Side, i: nat, n: nat)
    requires i <= n <= |p.symbols| && AllocKeys(p, side, i).Err?
    ensures AllocKeys(p, side, n).Err?
    decreases n
  {
    if i < n {
      AllocKeysErr(p, side, i, n - 1);
    }
  }

  /** Once a pass stops at a symbol, it stops for every longer prefix. */
  lemma {:induction false} PassErr(p: Program, side: Side, ids: map<u32, u32>, kind: PassKind, i: nat, n: nat)
    requires i <= n <= |p.symbols| && PassWrites(p, side, ids, kind, i).Err?
    ensures PassWrites(p, side, ids, kind, n).Err?
    decreases n
  {
    if i < n {
      PassErr(p, side, ids, kind, i, n - 1);
    }
  }

  /** `Declarations` goes through exactly when both its halves do, and is then the two halves in
    * order. */
  lemma DeclarationsParts(p: Program, t: Stage, ids: LegacyIds, inIds: map<u32, u32>, outIds: map<u32, u32>)
    ensures Declarations(p, t, ids, inIds, outIds).Ok?
      <==> Decorations(p, t, ids, inIds, outIds).Ok? && Variables(p, t, ids, inIds, outIds).Ok?
    ensures Declarations(p, t, ids, inIds, outIds).Ok? ==>
      Declarations(p, t, ids, inIds, outIds).value
        == Decorations(p, t, ids, inIds, outIds).value + Variables(p, t, ids, inIds, outIds).value
  {
  }

  /** Writing two runs one after the other appends the two, in order. */
  lemma AppendAssociates<T>(a: seq<T>, b: seq<T>, c: seq<T>)
    ensures a + b + c == a + (b + c)
  {
  }

  lemma AppendAssociates4<T>(a: seq<T>, b: seq<T>, c: seq<T>, d: seq<T>, e: seq<T>)
    ensures a + b + c + d + e == a + (b + c + d + e)
  {
  }

  /** Once the lowering stops at a statement, it stops there, with the same error, for every
    * longer prefix. */
  lemma {:induction false} LowerWithErr(lower: StatementLowering, statements: seq<Statement>, base: nat, i: nat, n: nat)
    requires i <= n <= |statements| && LowerWith(lower, statements, base, i).Err?
    ensures LowerWith(lower, statements, base, n) == LowerWith(lower, statements, base, i)
    decreases n
  {
    if i < n {
      LowerWithErr(lower, statements, base, i, n - 1);
    }
  }

  /** The statements never hand back ids: the count after them is at least the count before. */
  lemma {:induction false} LowerAllIssued(p: Program, ids: LegacyIds, inIds: map<u32, u32>, outIds: map<u32, u32>,
                                          base: nat, n: nat)
    requires n <= |p.statements| && LowerAll(p, ids, inIds, outIds, base, n).Ok?
    ensures LowerAll(p, ids, inIds, outIds, base, n).value.issued >= base
  {
    if n > 0 {
      LowerAllIssued(p, ids, inIds, outIds, base, n - 1);
    }
  }

  /** One more statement: the lowering so far, then the statement's, from the ids issued so far. */
  lemma LowerWithStep(lower: StatementLowering, statements: seq<Statement>, base: nat, i: nat, body: Lowered)
    requires i < |statements| && LowerWith(lower, statements, base, i) == Ok(body)
    ensures var next := lower(statements[i], body.issued);
      && (LowerWith(lower, statements, base, i + 1).Ok? <==> next.Ok?)
      && (next.Ok? ==> LowerWith(lower, statements, base, i + 1).value == Lowered(body.ins + next.value.ins, next.value.issued))
  {
  }

  /** A pass over the first `n` symbols goes through exactly when every symbol's selection does
    * and every symbol it takes has a pointer id; it then writes, for each taken symbol, the
    * instruction with that symbol's pointer id and location, and nothing else. */
  lemma {:induction false} PassWritesExact(p: Program, side: Side, ids: map<u32, u32>, kind: PassKind, n: nat)
    requires n <= |p.symbols|
    ensures PassWrites(p, side, ids, kind, n).Ok? <==>
      && (forall i :: 0 <= i < n ==> Selection(p, side, p.symbols[i]).Ok?)
      && (forall i :: 0 <= i < n && Taken(p, side, p.symbols[i]) ==> p.symbols[i].index in ids)
    ensures PassWrites(p, side, ids, kind, n).Ok? ==>
      var written := PassWrites(p, side, ids, kind, n).value;
      && (forall i :: 0 <= i < n && Taken(p, side, p.symbols[i]) ==>
            PassInstruction(side, kind, ids[p.symbols[i].index], Selection(p, side, p.symbols[i]).value.value) in written)
      && (forall w :: w in written ==>
            exists i :: (0 <= i < n && Taken(p, side, p.symbols[i]) &&
              w == PassInstruction(side, kind, ids[p.symbols[i].index], Selection(p, side, p.symbols[i]).value.value)))
  {
    if n > 0 {
      PassWritesExact(p, side, ids, kind, n - 1);
      var s := p.symbols[n - 1];
      if PassWrites(p, side, ids, kind, n - 1).Err? {
        PassErr(p, side, ids, kind, n - 1, n);
      } else if PassWrites(p, side, ids, kind, n).Ok? {
        var before := PassWrites(p, side, ids, kind, n - 1).value;
        var written := PassWrites(p, side, ids, kind, n).value;
        forall w | w in written
          ensures exists i :: (0 <= i < n && Taken(p, side, p.symbols[i]) &&
            w == PassInstruction(side, kind, ids[p.symbols[i].index], Selection(p, side, p.symbols[i]).value.value))
        {
          if w !in before {
            assert Taken(p, side, p.symbols[n - 1]);
          }
        }
      }
    }
  }

  /** Once both allocations succeed, every pointer pass goes through: each symbol a pass takes
    * was given a pointer id by the allocation of its side. */
  lemma AllocatedPassesSucceed(p: Program, side: Side, base: nat, kind: PassKind)
    requires AllocKeys(p, side, |p.symbols|).Ok?
    ensures PassWrites(p, side, IdMap(AllocKeys(p, side, |p.symbols|).value, base), kind, |p.symbols|).Ok?
  {
    var keys := AllocKeys(p, side, |p.symbols|).value;
    AllocKeysExact(p, side, |p.symbols|);
    AllocKeysTaken(p, side, |p.symbols|);
    IdMapAt(keys, base);
    PassWritesExact(p, side, IdMap(keys, base), kind, |p.symbols|);
  }

  /** Everything before the statements is written once both allocations succeed: `Generate` can
    * only stop at an allocation or at a statement. */
  lemma DeclarationsSucceed(p: Program, t: Stage, inKeys: seq<u32>, outKeys: seq<u32>)
    requires AllocKeys(p, InputSide, |p.symbols|) == Ok(inKeys)
    requires AllocKeys(p, OutputSide, |p.symbols|) == Ok(outKeys)
    ensures Declarations(p, t, IdsFor(|inKeys|, |outKeys|), IdMap(inKeys, 9), IdMap(outKeys, 9 + |inKeys|)).Ok?
  {
    var ids := IdsFor(|inKeys|, |outKeys|);
    AllocatedPassesSucceed(p, InputSide, 9, Decorate);
    AllocatedPassesSucceed(p, OutputSide, 9 + |inKeys|, Decorate);
    AllocatedPassesSucceed(p, InputSide, 9, Declare(ids.inputFloat4Pointer));
    AllocatedPassesSucceed(p, OutputSide, 9 + |inKeys|, Declare(ids.outputFloat4Pointer));
  }
}

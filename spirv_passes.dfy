/** What each pass of the SPIR-V generator (src/generators/SpirvShaderGenerator.cpp) writes, as
  * functions of the program and of the ids allocated before the pass. The generator's methods
  * are proved to write exactly these instructions. */
module SpirvPasses {
  import opened Wrappers
  import opened Ir
  import opened ShaderProgram
  import opened Spv
  import opened SpirvEncoding
  import opened SpirvSupport

  // ----- failure messages (the source asserts; the model stops with one of these) -----

  const DecorateInputPointerIdsInputHasNoPointer: string := "DecorateInputPointerIds: input has no pointer"
  const DecorateInputPointerIdsPositionInputOutsideFragmentShader: string := "DecorateInputPointerIds: position input outside a fragment shader"
  const DecorateInputPointerIdsInvocationIdOutsideComputeShader: string := "DecorateInputPointerIds: invocation id outside a compute shader"
  const DeclareInputPointerIdsInputHasNoPointer: string := "DeclareInputPointerIds: input has no pointer"
  const DeclareInputPointerIdsInvocationIdMustBeInt4: string := "DeclareInputPointerIds: invocation id must be Int4"
  const OutputIsNotFloat4: string := "output is not Float4"
  const OutputIndexAllocatedTwice: string := "output index allocated twice"
  const DecorateOutputPointerIdsOutputHasNoPointer: string := "DecorateOutputPointerIds: output has no pointer"
  const DeclareOutputPointerIdsOutputHasNoPointer: string := "DeclareOutputPointerIds: output has no pointer"
  const DecorateTextureIdsTextureHasNoPointer: string := "DecorateTextureIds: texture has no pointer"
  const DeclareTextureIdsTextureHasNoPointer: string := "DeclareTextureIds: texture has no pointer"
  const DeclareTextureIdsNoSampledImagePointerType: string := "DeclareTextureIds: no sampled image pointer type"
  const DeclareTextureIdsNoStorageImagePointerType: string := "DeclareTextureIds: no storage image pointer type"
  const DeclareTextureIdsNotTextureType: string := "DeclareTextureIds: not a texture type"
  const DecorateUniformStructIdsUnsupportedUniformType: string := "DecorateUniformStructIds: unsupported uniform type"
  const DeclareTemporaryValueIdsUnsupportedTemporaryType: string := "DeclareTemporaryValueIds: unsupported temporary type"

  /** The type and pointer ids the generator keeps in members, and the per-vertex output
    * variable. Each is 0 (`EMPTY_ID`) until allocated. */
  datatype TypeIds = TypeIds(
    boolType: u32 := 0,
    floatType: u32 := 0,
    float4Type: u32 := 0,
    uintType: u32 := 0,
    uint4Type: u32 := 0,
    matrix44Type: u32 := 0,
    uintArrayType: u32 := 0,
    intType: u32 := 0,
    int3Type: u32 := 0,
    int4Type: u32 := 0,
    inputFloat4Pointer: u32 := 0,
    inputInt3Pointer: u32 := 0,
    outputFloat4Pointer: u32 := 0,
    pushFloat4Pointer: u32 := 0,
    pushMatrix44Pointer: u32 := 0,
    uniformUintPointer: u32 := 0,
    sampledImage2DType: u32 := 0,
    sampledImageSamplerType: u32 := 0,
    sampledImageSamplerPointer: u32 := 0,
    storageImage2DType: u32 := 0,
    storageImage2DPointer: u32 := 0,
    outputPerVertexVariable: u32 := 0)

  function TypeIdList(t: TypeIds): seq<u32>
  {
    [t.boolType, t.floatType, t.float4Type, t.uintType, t.uint4Type, t.matrix44Type, t.uintArrayType,
     t.intType, t.int3Type, t.int4Type, t.inputFloat4Pointer, t.inputInt3Pointer, t.outputFloat4Pointer,
     t.pushFloat4Pointer, t.pushMatrix44Pointer, t.uniformUintPointer, t.sampledImage2DType,
     t.sampledImageSamplerType, t.sampledImageSamplerPointer, t.storageImage2DType,
     t.storageImage2DPointer, t.outputPerVertexVariable]
  }

  /** The ids `Generate` keeps in locals: the void and main function types, the per-vertex block
    * type and its pointer type, the main function and its first label. */
  datatype MainIds = MainIds(
    voidType: u32,
    mainFunctionType: u32,
    perVertexStructType: u32,
    outputPerVertexStructPointer: u32,
    mainFunction: u32,
    mainFunctionLabel: u32)

  function MainIdList(m: MainIds): seq<u32>
  {
    [m.voidType, m.mainFunctionType, m.perVertexStructType, m.outputPerVertexStructPointer, m.mainFunction, m.mainFunctionLabel]
  }

  // ----- ids and layout -----

  /** Every id stored in `m` is at most `n`. */
  predicate ValuesAtMost(m: map<u32, u32>, n: nat)
  {
    forall k :: k in m ==> m[k] <= n
  }

  /** The instructions follow the logical layout of a module (section 2.4 of the Khronos SPIR-V
    * Specification): no instruction belongs to an earlier section than one before it. */
  predicate LayoutOrdered(ins: seq<Instruction>)
  {
    forall i, j :: 0 <= i < j < |ins| ==> Rank(ins[i].opcode) <= Rank(ins[j].opcode)
  }

  /** The layout sections of `ins` never decrease and none is later than `last`; stated
    * instruction by instruction from the end (see `SectionsOrdered`). */
  predicate Sections(ins: seq<Instruction>, last: nat)
  {
    ins == [] || (Rank(ins[|ins| - 1].opcode) <= last && Sections(ins[..|ins| - 1], Rank(ins[|ins| - 1].opcode)))
  }

  lemma SectionsWiden(ins: seq<Instruction>, last: nat, last': nat)
    requires Sections(ins, last) && last <= last'
    ensures Sections(ins, last')
  {
  }

  /** `Sections` is the logical layout order, with every section at most `last`. */
  lemma {:induction false} SectionsOrdered(ins: seq<Instruction>, last: nat)
    requires Sections(ins, last)
    ensures LayoutOrdered(ins)
    ensures forall k :: 0 <= k < |ins| ==> Rank(ins[k].opcode) <= last
  {
    if ins != [] {
      var n := |ins| - 1;
      var init := ins[..n];
      SectionsOrdered(init, Rank(ins[n].opcode));
      assert forall k :: 0 <= k < n ==> ins[k] == init[k];
    }
  }

  /** A stream holding the five header words with a zero bound, then the encoded instructions,
    * whose layout sections are in order and none later than `last`. */
  predicate StreamLayout(stream: seq<Word>, ins: seq<Instruction>, last: nat)
  {
    && |stream| >= 5
    && stream[..5] == [MagicNumber, Version13, 0, 0, 0]
    && stream[5..] == EncodeAll(ins)
    && Sections(ins, last)
  }

  /** Writing an instruction of the same or a later section keeps the layout. */
  lemma StreamLayoutAppend(stream: seq<Word>, ins: seq<Instruction>, last: nat, i: Instruction)
    requires StreamLayout(stream, ins, last) && last <= Rank(i.opcode)
    ensures StreamLayout(stream + Encode(i), ins + [i], Rank(i.opcode))
  {
    EncodeAllAppend(ins, i);
    assert (stream + Encode(i))[5..] == stream[5..] + Encode(i);
    assert (stream + Encode(i))[..5] == stream[..5];
    assert (ins + [i])[..|ins|] == ins;
    SectionsWiden(ins, last, Rank(i.opcode));
  }

  /** Every instruction of `ins` belongs to layout section `rank`. */
  predicate InSection(ins: seq<Instruction>, rank: nat)
  {
    forall k :: 0 <= k < |ins| ==> Rank(ins[k].opcode) == rank
  }

  lemma InSectionConcat(a: seq<Instruction>, b: seq<Instruction>, rank: nat)
    requires InSection(a, rank) && InSection(b, rank)
    ensures InSection(a + b, rank)
  {
    assert forall k :: 0 <= k < |a + b| ==> (a + b)[k] == if k < |a| then a[k] else b[k - |a|];
  }

  /** Instructions of one section written after instructions of no later section keep the
    * layout. */
  lemma {:induction false} SectionsAppend(a: seq<Instruction>, last: nat, b: seq<Instruction>, rank: nat)
    requires Sections(a, last) && last <= rank && InSection(b, rank)
    ensures Sections(a + b, rank)
    decreases |b|
  {
    if b == [] {
      assert a + b == a;
      SectionsWiden(a, last, rank);
    } else {
      var n := |b| - 1;
      SectionsAppend(a, last, b[..n], rank);
      assert (a + b)[..|a + b| - 1] == a + b[..n];
    }
  }

  /** Writing instructions of one section, no earlier than the last one written, keeps the
    * layout of the stream. */
  lemma StreamLayoutConcat(stream: seq<Word>, ins: seq<Instruction>, last: nat, more: seq<Instruction>, rank: nat)
    requires StreamLayout(stream, ins, last) && last <= rank && InSection(more, rank)
    ensures StreamLayout(stream + EncodeAll(more), ins + more, rank)
  {
    EncodeAllConcat(ins, more);
    SliceConcat(stream, EncodeAll(more), 5);
    SectionsAppend(ins, last, more, rank);
  }

  lemma SliceConcat<T>(a: seq<T>, b: seq<T>, n: nat)
    requires n <= |a|
    ensures (a + b)[n..] == a[n..] + b && (a + b)[..n] == a[..n]
  {
  }

  /** Operands given as numbers (ids, literals and enumerants), one word each. */
  function Nums(ws: seq<Word>): (ps: seq<Param>)
    ensures |ps| == |ws| && forall k :: 0 <= k < |ws| ==> ps[k] == Num(ws[k])
  {
    seq(|ws|, k requires 0 <= k < |ws| => Num(ws[k]))
  }

  lemma NumsConvert(ws: seq<Word>)
    ensures ValidParams(Nums(ws)) && ConvertParams(Nums(ws)) == ws
  {
    ConvertNumbers(Nums(ws));
  }

  // ----- loops over a sequence -----

  /** The instructions a loop writes when its step i writes `f(i)`, for i from 0 to n - 1; the
    * first step that violates a contract stops it. */
  function Collect(f: nat -> Result<seq<Instruction>>, n: nat): Result<seq<Instruction>>
  {
    if n == 0 then Ok([])
    else
      match Collect(f, n - 1)
      case Err(e) => Err(e)
      case Ok(prev) =>
        match f(n - 1)
        case Err(e) => Err(e)
        case Ok(step) => Ok(prev + step)
  }

  /** One more step of a completed prefix: its instructions follow, or its violation stops the loop. */
  lemma CollectNext(f: nat -> Result<seq<Instruction>>, n: nat, prev: seq<Instruction>)
    requires Collect(f, n) == Ok(prev)
    ensures f(n).Ok? ==> Collect(f, n + 1) == Ok(prev + f(n).value)
    ensures f(n).Err? ==> Collect(f, n + 1) == Err(f(n).error)
  {
  }

  /** A loop completes exactly when every one of its steps does. */
  lemma {:induction false} CollectOk(f: nat -> Result<seq<Instruction>>, n: nat)
    ensures Collect(f, n).Ok? <==> forall i :: 0 <= i < n ==> f(i).Ok?
  {
    if n > 0 {
      CollectOk(f, n - 1);
    }
  }

  /** When every step writes one instruction, the loop writes them in step order. */
  lemma {:induction false} CollectSingles(f: nat -> Result<seq<Instruction>>, n: nat)
    requires forall i :: 0 <= i < n ==> f(i).Ok? && |f(i).value| == 1
    ensures Collect(f, n).Ok?
    ensures |Collect(f, n).value| == n
    ensures forall i :: 0 <= i < n ==> Collect(f, n).value[i] == f(i).value[0]
  {
    if n > 0 {
      CollectSingles(f, n - 1);
    }
  }

  /** Every step up to n writes instructions of section `rank` only. */
  predicate StepsIn(f: nat -> Result<seq<Instruction>>, n: nat, rank: nat)
  {
    forall i :: 0 <= i < n && f(i).Ok? ==> InSection(f(i).value, rank)
  }

  /** A loop whose steps write one section writes that section. */
  lemma {:induction false} CollectInSection(f: nat -> Result<seq<Instruction>>, n: nat, rank: nat)
    requires StepsIn(f, n, rank)
    ensures Collect(f, n).Ok? ==> InSection(Collect(f, n).value, rank)
  {
    if n > 0 {
      CollectInSection(f, n - 1, rank);
      if Collect(f, n).Ok? {
        InSectionConcat(Collect(f, n - 1).value, f(n - 1).value, rank);
      }
    }
  }

  /** Once a step fails, the loop fails. */
  lemma {:induction false} CollectFails(f: nat -> Result<seq<Instruction>>, m: nat, n: nat)
    requires m <= n && Collect(f, m).Err?
    ensures Collect(f, n).Err?
    decreases n
  {
    if m < n {
      CollectFails(f, m, n - 1);
    }
  }

  /** A step over the symbols of `p`, writing nothing past the end. */
  function OverSymbols(p: Program, g: Symbol -> Result<seq<Instruction>>): nat -> Result<seq<Instruction>>
  {
    (i: nat) => if i < |p.symbols| then g(p.symbols[i]) else Ok([])
  }

  // ----- inputs -----

  /** The input semantics a shader stage supports: the fragment position only in a fragment
    * shader, the global invocation id only in a compute shader, and otherwise any semantic with
    * a location. */
  predicate InputSupported(stage: ShaderType, sem: SemanticInfo)
  {
    if sem.semantic == SystemPosition then stage == FragmentShader
    else if sem.semantic == SystemGiid then stage == ComputeShader
    else MapSemanticToLocation(sem.semantic, sem.index).Ok?
  }

  /** `DecorateInputPointerIds`, one symbol: an input's pointer is decorated as the FragCoord or
    * GlobalInvocationId built-in, or with the location of its semantic. */
  function InputDecoration(p: Program, stage: ShaderType, ptrs: map<u32, u32>, s: Symbol): (r: Result<seq<Instruction>>)
    ensures s.location != Input ==> r == Ok([])
    ensures s.location == Input ==> (r.Ok? <==> GetInputSemantic(p, s).Ok? && s.index in ptrs && InputSupported(stage, GetInputSemantic(p, s).value))
    ensures s.location == Input && r.Ok? ==> |r.value| == 1 && r.value[0].opcode == OpDecorate && |r.value[0].operands| >= 1 && r.value[0].operands[0] == ptrs[s.index]
  {
    if s.location != Input then Ok([])
    else
      match GetInputSemantic(p, s)
      case Err(e) => Err(e)
      case Ok(sem) =>
        if s.index !in ptrs then Err(DecorateInputPointerIdsInputHasNoPointer)
        else
          var ptr := ptrs[s.index];
          if sem.semantic == SystemPosition then
            if stage == FragmentShader then Ok([Instruction(OpDecorate, [ptr, DecorationBuiltIn, BuiltInFragCoord])])
            else Err(DecorateInputPointerIdsPositionInputOutsideFragmentShader)
          else if sem.semantic == SystemGiid then
            if stage == ComputeShader then Ok([Instruction(OpDecorate, [ptr, DecorationBuiltIn, BuiltInGlobalInvocationId])])
            else Err(DecorateInputPointerIdsInvocationIdOutsideComputeShader)
          else
            match MapSemanticToLocation(sem.semantic, sem.index)
            case Err(e) => Err(e)
            case Ok(location) => Ok([Instruction(OpDecorate, [ptr, DecorationLocation, location])])
  }

  function InputDecorations(p: Program, stage: ShaderType, ptrs: map<u32, u32>): nat -> Result<seq<Instruction>>
  {
    OverSymbols(p, s => InputDecoration(p, stage, ptrs, s))
  }

  /** The input decorations are written exactly when every input has a recorded semantic, a
    * pointer, and a semantic the stage supports; then each input gets one decoration. */
  lemma InputDecorationsOk(p: Program, stage: ShaderType, ptrs: map<u32, u32>)
    ensures Collect(InputDecorations(p, stage, ptrs), |p.symbols|).Ok? <==>
      forall i :: 0 <= i < |p.symbols| && p.symbols[i].location == Input ==>
        && GetInputSemantic(p, p.symbols[i]).Ok?
        && p.symbols[i].index in ptrs
        && InputSupported(stage, GetInputSemantic(p, p.symbols[i]).value)
  {
    var f := InputDecorations(p, stage, ptrs);
    CollectOk(f, |p.symbols|);
    assert forall i :: 0 <= i < |p.symbols| ==> f(i) == InputDecoration(p, stage, ptrs, p.symbols[i]);
  }

  /** `DeclareInputPointerIds`, one symbol: the input variable, an int3 pointer for the invocation
    * id (which must be an Int4 symbol) and a float4 pointer otherwise. */
  function InputVariable(p: Program, t: TypeIds, ptrs: map<u32, u32>, s: Symbol): (r: Result<seq<Instruction>>)
    ensures s.location != Input ==> r == Ok([])
    ensures s.location == Input ==> (r.Ok? <==>
      && GetInputSemantic(p, s).Ok? && s.index in ptrs
      && (GetInputSemantic(p, s).value.semantic == SystemGiid ==> s.ty == Int4))
    ensures s.location == Input && r.Ok? ==>
      && |r.value| == 1
      && r.value[0] == Instruction(OpVariable, [
           if GetInputSemantic(p, s).value.semantic == SystemGiid then t.inputInt3Pointer else t.inputFloat4Pointer,
           ptrs[s.index], StorageClassInput])
  {
    if s.location != Input then Ok([])
    else
      match GetInputSemantic(p, s)
      case Err(e) => Err(e)
      case Ok(sem) =>
        if s.index !in ptrs then Err(DeclareInputPointerIdsInputHasNoPointer)
        else if sem.semantic == SystemGiid then
          if s.ty == Int4 then Ok([Instruction(OpVariable, [t.inputInt3Pointer, ptrs[s.index], StorageClassInput])])
          else Err(DeclareInputPointerIdsInvocationIdMustBeInt4)
        else Ok([Instruction(OpVariable, [t.inputFloat4Pointer, ptrs[s.index], StorageClassInput])])
  }

  function InputVariables(p: Program, t: TypeIds, ptrs: map<u32, u32>): nat -> Result<seq<Instruction>>
  {
    OverSymbols(p, s => InputVariable(p, t, ptrs, s))
  }

  // ----- outputs -----

  /** An output that gets a pointer variable of its own: every output but the position, which
    * goes through the per-vertex block. */
  predicate PointerOutput(p: Program, s: Symbol)
  {
    s.location == Output && GetOutputSemantic(p, s).Ok? && GetOutputSemantic(p, s).value.semantic != SystemPosition
  }

  /** What `AllocateOutputPointerIds` checks of the first n symbols: every output has a recorded
    * semantic, and the outputs with their own pointer are Float4 and have distinct indices. */
  predicate OutputsAllocatableBefore(p: Program, n: nat)
    requires n <= |p.symbols|
  {
    && (forall i :: 0 <= i < n && p.symbols[i].location == Output ==> GetOutputSemantic(p, p.symbols[i]).Ok?)
    && (forall i :: 0 <= i < n && PointerOutput(p, p.symbols[i]) ==> p.symbols[i].ty == Float4)
    && (forall i, j :: 0 <= i < j < n && PointerOutput(p, p.symbols[i]) && PointerOutput(p, p.symbols[j]) ==>
          p.symbols[i].index != p.symbols[j].index)
  }

  predicate OutputsAllocatable(p: Program)
  {
    OutputsAllocatableBefore(p, |p.symbols|)
  }

  /** The indices of the outputs among the first n symbols that get a pointer of their own. */
  function PointerOutputKeys(p: Program, n: nat): set<u32>
    requires n <= |p.symbols|
  {
    set i | 0 <= i < n && PointerOutput(p, p.symbols[i]) :: p.symbols[i].index
  }

  /** One more symbol: it must be an output with a semantic, Float4 and of a new index when it
    * gets a pointer; the keys grow by its index then. */
  lemma OutputsAllocatableSnoc(p: Program, i: nat)
    requires i < |p.symbols|
    ensures OutputsAllocatableBefore(p, i + 1) <==>
      && OutputsAllocatableBefore(p, i)
      && (p.symbols[i].location == Output ==> GetOutputSemantic(p, p.symbols[i]).Ok?)
      && (PointerOutput(p, p.symbols[i]) ==> p.symbols[i].ty == Float4 && p.symbols[i].index !in PointerOutputKeys(p, i))
    ensures PointerOutputKeys(p, i + 1) == PointerOutputKeys(p, i) + (if PointerOutput(p, p.symbols[i]) then {p.symbols[i].index} else {})
  {
    var s := p.symbols[i];
    if PointerOutput(p, s) && s.index in PointerOutputKeys(p, i) {
      var j :| 0 <= j < i && PointerOutput(p, p.symbols[j]) && p.symbols[j].index == s.index;
      assert !OutputsAllocatableBefore(p, i + 1);
    }
  }

  lemma OutputsAllocatablePrefix(p: Program, m: nat, n: nat)
    requires m <= n <= |p.symbols| && OutputsAllocatableBefore(p, n)
    ensures OutputsAllocatableBefore(p, m)
  {
  }

  /** The scan `AllocateOutputPointerIds` makes over the first n symbols: the output indices given
    * a pointer so far, or the failure of the first output that breaks the rules. */
  function OutputScan(p: Program, n: nat): Result<set<u32>>
    requires n <= |p.symbols|
    decreases n
  {
    if n == 0 then Ok({})
    else
      var prev := OutputScan(p, n - 1);
      if prev.Err? then prev else OutputStep(p, p.symbols[n - 1], prev.value)
  }

  /** One symbol of that scan, given the indices allocated before it. */
  function OutputStep(p: Program, s: Symbol, keys: set<u32>): Result<set<u32>>
  {
    if s.location != Output then Ok(keys)
    else if GetOutputSemantic(p, s).Err? then Err(GetOutputSemantic(p, s).error)
    else if GetOutputSemantic(p, s).value.semantic == SystemPosition then Ok(keys)
    else if s.ty != Float4 then Err(OutputIsNotFloat4)
    else if s.index in keys then Err(OutputIndexAllocatedTwice)
    else Ok(keys + {s.index})
  }

  /** The scan succeeds exactly when the outputs are allocatable, and then yields the indices of
    * those with a pointer of their own. */
  lemma {:induction false} OutputScanMeaning(p: Program, n: nat)
    requires n <= |p.symbols|
    ensures OutputScan(p, n).Ok? <==> OutputsAllocatableBefore(p, n)
    ensures OutputScan(p, n).Ok? ==> OutputScan(p, n).value == PointerOutputKeys(p, n)
  {
    if n > 0 {
      OutputScanMeaning(p, n - 1);
      OutputsAllocatableSnoc(p, n - 1);
      if !OutputsAllocatableBefore(p, n - 1) {
        assert !OutputsAllocatableBefore(p, n);
      }
    }
  }

  /** A failed scan stays failed. */
  lemma {:induction false} OutputScanFails(p: Program, m: nat, n: nat)
    requires m <= n <= |p.symbols| && OutputScan(p, m).Err?
    ensures OutputScan(p, n).Err?
    decreases n
  {
    if m < n {
      OutputScanFails(p, m, n - 1);
    }
  }

  /** A pass that allocates one id per key: when the counter has not wrapped past `hi`, the ids
    * are among lo + 1 .. hi and no two keys share one. */
  predicate FreshIds(m: map<u32, u32>, lo: nat, hi: nat)
  {
    hi < 0xFFFF_FFFF ==>
      && (forall k :: k in m ==> lo < m[k] <= hi)
      && (forall k1, k2 :: k1 in m && k2 in m && k1 != k2 ==> m[k1] != m[k2])
  }

  /** No key yet: trivially fresh. */
  lemma FreshIdsNone(lo: nat)
    ensures FreshIds(map[], lo, lo) && ValuesAtMost(map[], lo)
  {
  }

  /** Adding a key with the next id keeps the ids fresh. */
  lemma FreshIdsAdd(m: map<u32, u32>, k: u32, id: u32, lo: nat, hi: nat)
    requires FreshIds(m, lo, hi) && ValuesAtMost(m, hi) && lo <= hi && k !in m
    requires id <= hi + 1 && (hi + 1 < 0xFFFF_FFFF ==> id == hi + 1)
    ensures FreshIds(m[k := id], lo, hi + 1) && ValuesAtMost(m[k := id], hi + 1)
  {
  }

  /** `DecorateOutputPointerIds`, one symbol: the location of an output's semantic; the position
    * is skipped. */
  function OutputDecoration(p: Program, ptrs: map<u32, u32>, s: Symbol): (r: Result<seq<Instruction>>)
    ensures !PointerOutput(p, s) && r.Ok? ==> r.value == []
    ensures PointerOutput(p, s) ==> (r.Ok? <==> s.index in ptrs && MapSemanticToLocation(GetOutputSemantic(p, s).value.semantic, GetOutputSemantic(p, s).value.index).Ok?)
    ensures PointerOutput(p, s) && r.Ok? ==> r.value == [Instruction(OpDecorate, [ptrs[s.index], DecorationLocation,
      MapSemanticToLocation(GetOutputSemantic(p, s).value.semantic, GetOutputSemantic(p, s).value.index).value])]
  {
    if s.location != Output then Ok([])
    else
      match GetOutputSemantic(p, s)
      case Err(e) => Err(e)
      case Ok(sem) =>
        if sem.semantic == SystemPosition then Ok([])
        else if s.index !in ptrs then Err(DecorateOutputPointerIdsOutputHasNoPointer)
        else
          match MapSemanticToLocation(sem.semantic, sem.index)
          case Err(e) => Err(e)
          case Ok(location) => Ok([Instruction(OpDecorate, [ptrs[s.index], DecorationLocation, location])])
  }

  function OutputDecorations(p: Program, ptrs: map<u32, u32>): nat -> Result<seq<Instruction>>
  {
    OverSymbols(p, s => OutputDecoration(p, ptrs, s))
  }

  /** `DeclareOutputPointerIds`, one symbol: a float4 output variable; the position is skipped. */
  function OutputVariable(p: Program, t: TypeIds, ptrs: map<u32, u32>, s: Symbol): (r: Result<seq<Instruction>>)
    ensures !PointerOutput(p, s) && r.Ok? ==> r.value == []
    ensures PointerOutput(p, s) ==> (r.Ok? <==> s.index in ptrs)
    ensures PointerOutput(p, s) && r.Ok? ==> r.value == [Instruction(OpVariable, [t.outputFloat4Pointer, ptrs[s.index], StorageClassOutput])]
  {
    if s.location != Output then Ok([])
    else
      match GetOutputSemantic(p, s)
      case Err(e) => Err(e)
      case Ok(sem) =>
        if sem.semantic == SystemPosition then Ok([])
        else if s.index !in ptrs then Err(DeclareOutputPointerIdsOutputHasNoPointer)
        else Ok([Instruction(OpVariable, [t.outputFloat4Pointer, ptrs[s.index], StorageClassOutput])])
  }

  function OutputVariables(p: Program, t: TypeIds, ptrs: map<u32, u32>): nat -> Result<seq<Instruction>>
  {
    OverSymbols(p, s => OutputVariable(p, t, ptrs, s))
  }

  // ----- textures -----

  /** `DecorateTextureIds`, one symbol: descriptor set 0 and the binding of the texture's unit. */
  function TextureDecoration(ptrs: map<u32, u32>, s: Symbol): (r: Result<seq<Instruction>>)
    ensures s.location != Texture ==> r == Ok([])
    ensures s.location == Texture ==> (r.Ok? <==> s.unit in ptrs)
    ensures s.location == Texture && r.Ok? ==> r.value == [
      Instruction(OpDecorate, [ptrs[s.unit], DecorationDescriptorSet, 0]),
      Instruction(OpDecorate, [ptrs[s.unit], DecorationBinding, s.unit])]
  {
    if s.location != Texture then Ok([])
    else if s.unit !in ptrs then Err(DecorateTextureIdsTextureHasNoPointer)
    else Ok([Instruction(OpDecorate, [ptrs[s.unit], DecorationDescriptorSet, 0]),
             Instruction(OpDecorate, [ptrs[s.unit], DecorationBinding, s.unit])])
  }

  function TextureDecorations(p: Program, ptrs: map<u32, u32>): nat -> Result<seq<Instruction>>
  {
    OverSymbols(p, s => TextureDecoration(ptrs, s))
  }

  /** `DecorateTextureIds` as written: the pointer is looked up by the symbol's index, and the
    * binding is the index too. */
  function TextureDecorationAsWritten(ptrs: map<u32, u32>, s: Symbol): (r: Result<seq<Instruction>>)
    ensures s.location != Texture ==> r == Ok([])
    ensures s.location == Texture ==> (r.Ok? <==> s.index in ptrs)
  {
    if s.location != Texture then Ok([])
    else if s.index !in ptrs then Err(DecorateTextureIdsTextureHasNoPointer)
    else Ok([Instruction(OpDecorate, [ptrs[s.index], DecorationDescriptorSet, 0]),
             Instruction(OpDecorate, [ptrs[s.index], DecorationBinding, s.index])])
  }

  /** In every program the builder makes, `DecorateTextureIds` as written binds each texture to
    * 0xFFFFFFFF, the index the builder gives textures, where the decoration keyed by unit binds
    * it to its unit: the two differ for every texture whose unit is not 0xFFFFFFFF, such as a
    * single texture at unit 0. */
  lemma TextureBindingAsWritten(p: Program, byIndex: map<u32, u32>, byUnit: map<u32, u32>, i: nat)
    requires WellFormed(p) && i < |p.symbols| && p.symbols[i].location == Texture
    requires NoIndex in byIndex && p.symbols[i].unit in byUnit
    ensures var written := TextureDecorationAsWritten(byIndex, p.symbols[i]);
      && written.Ok? && written.value[1] == Instruction(OpDecorate, [byIndex[NoIndex], DecorationBinding, NoIndex])
    ensures var intended := TextureDecoration(byUnit, p.symbols[i]);
      && intended.Ok?
      && intended.value[1] == Instruction(OpDecorate, [byUnit[p.symbols[i].unit], DecorationBinding, p.symbols[i].unit])
      && (p.symbols[i].unit != NoIndex ==> intended.value[1] != TextureDecorationAsWritten(byIndex, p.symbols[i]).value[1])
  {
  }

  /** `DeclareTextureIds`, one symbol: a uniform-constant variable of the sampled-image pointer
    * type for a Texture2D and of the storage-image pointer type for an Image2DUint. */
  function TextureVariable(t: TypeIds, ptrs: map<u32, u32>, s: Symbol): (r: Result<seq<Instruction>>)
    ensures s.location != Texture ==> r == Ok([])
    ensures s.location == Texture ==> (r.Ok? <==>
      s.unit in ptrs && ((s.ty == Texture2D && t.sampledImageSamplerPointer != 0) || (s.ty == Image2DUint && t.storageImage2DPointer != 0)))
    ensures s.location == Texture && r.Ok? ==> r.value == [Instruction(OpVariable, [
      if s.ty == Texture2D then t.sampledImageSamplerPointer else t.storageImage2DPointer,
      ptrs[s.unit], StorageClassUniformConstant])]
  {
    if s.location != Texture then Ok([])
    else if s.unit !in ptrs then Err(DeclareTextureIdsTextureHasNoPointer)
    else
      match s.ty
      case Texture2D =>
        if t.sampledImageSamplerPointer == 0 then Err(DeclareTextureIdsNoSampledImagePointerType)
        else Ok([Instruction(OpVariable, [t.sampledImageSamplerPointer, ptrs[s.unit], StorageClassUniformConstant])])
      case Image2DUint =>
        if t.storageImage2DPointer == 0 then Err(DeclareTextureIdsNoStorageImagePointerType)
        else Ok([Instruction(OpVariable, [t.storageImage2DPointer, ptrs[s.unit], StorageClassUniformConstant])])
      case _ => Err(DeclareTextureIdsNotTextureType)
  }

  function TextureVariables(p: Program, t: TypeIds, ptrs: map<u32, u32>): nat -> Result<seq<Instruction>>
  {
    OverSymbols(p, s => TextureVariable(t, ptrs, s))
  }

  // ----- uniform blocks -----

  /** `m_structInfos[unit]`: the entry, or a default one. */
  function InfoOf(infos: map<u32, StructInfo>, unit: u32): StructInfo
  {
    if unit in infos then infos[unit] else StructInfo()
  }

  /** `DecorateUniformStructIds`, symbol i: the member decorations of a uniform, at the index and
    * offset its unit's earlier members leave. */
  function MemberDecorationStep(p: Program, infos: map<u32, StructInfo>): nat -> Result<seq<Instruction>>
  {
    (i: nat) =>
      if i < |p.symbols| && p.symbols[i].location == Uniform then
        var s := p.symbols[i];
        if IsMemberType(s.ty) then
          Ok(MemberDecorations(InfoOf(infos, s.unit).typeId, MemberIndexAt(p.symbols, i), MemberOffsetAt(p.symbols, i), s.ty))
        else Err(DecorateUniformStructIdsUnsupportedUniformType)
      else Ok([])
  }

  /** The units in `m_structInfos` order. */
  function Units(infos: map<u32, StructInfo>): seq<u32>
  {
    Ascending(infos.Keys)
  }

  /** Step i of a loop over the blocks in unit order. */
  function OverUnits(infos: map<u32, StructInfo>, g: (u32, StructInfo) -> seq<Instruction>): nat -> Result<seq<Instruction>>
  {
    AscendingSpec(infos.Keys);
    (i: nat) => var units := Units(infos); if i < |units| then Ok(g(units[i], infos[units[i]])) else Ok([])
  }

  function BlockDecorationSteps(infos: map<u32, StructInfo>): nat -> Result<seq<Instruction>>
  {
    OverUnits(infos, BlockDecorations)
  }

  /** What the second loop of `DecorateUniformStructIds` writes: the decorations of each block,
    * in unit order. */
  function BlockDecorationList(infos: map<u32, StructInfo>): seq<Instruction>
  {
    OverUnitsCollect(infos, BlockDecorations, |Units(infos)|);
    Collect(BlockDecorationSteps(infos), |Units(infos)|).value
  }

  /** The storage class of a block: push constants for the push-constant unit, uniform otherwise. */
  function BlockStorage(unit: u32): u32
  {
    if unit == PushConstantUnit then StorageClassPushConstant else StorageClassUniform
  }

  /** `DeclareUniformStructIds`, one block: its struct type and the pointer type to it. */
  function BlockTypes(unit: u32, info: StructInfo): seq<Instruction>
  {
    [Instruction(OpTypeStruct, [info.typeId] + info.components),
     Instruction(OpTypePointer, [info.pointerTypeId, BlockStorage(unit), info.typeId])]
  }

  /** The pointer types to block members that `DeclareUniformStructIds` writes after the blocks. */
  function MemberPointerTypes(t: TypeIds): seq<Instruction>
  {
    [Instruction(OpTypePointer, [t.pushFloat4Pointer, StorageClassPushConstant, t.float4Type]),
     Instruction(OpTypePointer, [t.pushMatrix44Pointer, StorageClassPushConstant, t.matrix44Type]),
     Instruction(OpTypePointer, [t.uniformUintPointer, StorageClassUniform, t.uintType])]
  }

  lemma MemberPointerTypesInSection(t: TypeIds)
    ensures InSection(MemberPointerTypes(t), 9)
  {
  }

  /** The block variables `Generate` declares, one per block. */
  function BlockVariable(unit: u32, info: StructInfo): seq<Instruction>
  {
    [Instruction(OpVariable, [info.pointerTypeId, info.variableId, BlockStorage(unit)])]
  }

  /** What `DeclareUniformStructIds` writes for the blocks: their types, in unit order. */
  function BlockTypeList(infos: map<u32, StructInfo>): seq<Instruction>
  {
    OverUnitsCollect(infos, BlockTypes, |Units(infos)|);
    Collect(OverUnits(infos, BlockTypes), |Units(infos)|).value
  }

  /** What `Generate` writes for the block variables, in unit order. */
  function BlockVariableList(infos: map<u32, StructInfo>): seq<Instruction>
  {
    OverUnitsCollect(infos, BlockVariable, |Units(infos)|);
    Collect(OverUnits(infos, BlockVariable), |Units(infos)|).value
  }

  /** Each block is declared with a struct type holding its members and a pointer type of its
    * storage class, and its variable uses that pointer type and storage class. */
  lemma BlockDeclarationsAgree(unit: u32, info: StructInfo)
    ensures BlockTypes(unit, info)[1].operands[0] == BlockVariable(unit, info)[0].operands[0]
    ensures BlockTypes(unit, info)[1].operands[1] == BlockVariable(unit, info)[0].operands[2]
    ensures BlockTypes(unit, info)[0].operands[1..] == info.components
    ensures BlockTypes(unit, info)[1].operands[1] == StorageClassPushConstant <==> unit == PushConstantUnit
  {
  }

  // ----- constants -----

  /** A `std::map<uint32, uint32>` from a constant's bits to its id, declared in key order. */
  function ConstantSteps(typeId: u32, m: map<u32, u32>): nat -> Result<seq<Instruction>>
  {
    AscendingSpec(m.Keys);
    (i: nat) => var ks := Ascending(m.Keys); if i < |ks| then Ok([Instruction(OpConstant, [typeId, m[ks[i]], ks[i]])]) else Ok([])
  }

  /** Every registered constant is declared once, with its own id and value, in ascending order of
    * value. */
  lemma ConstantDeclarations(typeId: u32, m: map<u32, u32>)
    ensures var d := Collect(ConstantSteps(typeId, m), |m.Keys|);
      && d.Ok? && |d.value| == |m.Keys|
      && forall k :: k in m ==> exists j :: 0 <= j < |d.value| && d.value[j] == Instruction(OpConstant, [typeId, m[k], k])
  {
    var ks := Ascending(m.Keys);
    AscendingSpec(m.Keys);
    var f := ConstantSteps(typeId, m);
    CollectSingles(f, |m.Keys|);
    var d := Collect(f, |m.Keys|).value;
    forall k | k in m
      ensures exists j :: 0 <= j < |d| && d[j] == Instruction(OpConstant, [typeId, m[k], k])
    {
      var j :| 0 <= j < |ks| && ks[j] == k;
      assert d[j] == f(j).value[0];
    }
  }

  /** The declarations of the constants of one type, in key order. */
  function ConstantList(typeId: u32, m: map<u32, u32>): seq<Instruction>
  {
    ConstantDeclarations(typeId, m);
    Collect(ConstantSteps(typeId, m), |m.Keys|).value
  }

  /** `m[k]` as `operator[]` reads it: 0 for a missing key. */
  function IdOf(m: map<u32, u32>, k: u32): u32
  {
    if k in m then m[k] else 0
  }

  /** The lanes of a temporary's constant as map keys: the float bits, or the int32 lanes
    * reinterpreted as uint32. */
  function FloatLanes(v: Vec4<Float>): seq<u32>
  {
    [v.x, v.y, v.z, v.w]
  }

  function IntLanes(v: Vec4<i32>): seq<u32>
  {
    [ToU32(v.x), ToU32(v.y), ToU32(v.z), ToU32(v.w)]
  }

  /** The temporaries `GatherConstantsFromTemps` can take: Float4, Int4 and Uint4 only. */
  predicate ConstantTemporary(s: Symbol)
  {
    s.location == Temporary ==> s.ty == Float4 || s.ty == Int4 || s.ty == Uint4
  }

  /** The map keys of a temporary's lanes. */
  function TemporaryLanes(p: Program, s: Symbol): (l: seq<u32>)
    requires s.location == Temporary && (s.ty == Float4 || s.ty == Int4 || s.ty == Uint4)
    ensures |l| == 4
  {
    if s.ty == Float4 then FloatLanes(GetTemporaryValue(p, s).value) else IntLanes(GetTemporaryValueInt(p, s).value)
  }

  /** `b` keeps every entry of `a`. */
  predicate Grows(a: map<u32, u32>, b: map<u32, u32>)
  {
    forall k :: k in a ==> k in b && b[k] == a[k]
  }

  /** The constant map that holds the lanes of a temporary of type `ty`. */
  function LaneMap(ty: SymbolType, floats: map<u32, u32>, ints: map<u32, u32>, uints: map<u32, u32>): map<u32, u32>
  {
    if ty == Float4 then floats else if ty == Int4 then ints else uints
  }

  /** What `GatherConstantsFromTemps` leaves for temporary `s`: each lane of its constant has a
    * scalar constant of its type. */
  predicate LanesRegistered(p: Program, s: Symbol, floats: map<u32, u32>, ints: map<u32, u32>, uints: map<u32, u32>)
  {
    s.location == Temporary && ConstantTemporary(s) ==>
      forall k :: 0 <= k < 4 ==> TemporaryLanes(p, s)[k] in LaneMap(s.ty, floats, ints, uints)
  }

  /** Lanes registered stay registered as the constant maps grow. */
  lemma LanesRegisteredGrow(p: Program, s: Symbol, floats: map<u32, u32>, ints: map<u32, u32>, uints: map<u32, u32>,
      floats': map<u32, u32>, ints': map<u32, u32>, uints': map<u32, u32>)
    requires LanesRegistered(p, s, floats, ints, uints)
    requires Grows(floats, floats') && Grows(ints, ints') && Grows(uints, uints')
    ensures LanesRegistered(p, s, floats', ints', uints')
  {
  }

  /** The number of temporaries among the first n symbols. */
  function TemporariesBefore(syms: seq<Symbol>, n: nat): nat
    requires n <= |syms|
  {
    if n == 0 then 0 else TemporariesBefore(syms, n - 1) + (if syms[n - 1].location == Temporary then 1 else 0)
  }

  /** The id `DeclareTemporaryValueIds` allocates for symbol i when `base` ids were allocated
    * before it. */
  function TemporaryId(syms: seq<Symbol>, base: nat, i: nat): u32
    requires i <= |syms|
  {
    ToU32(base + TemporariesBefore(syms, i) + 1)
  }

  /** `DeclareTemporaryValueIds`, one temporary: its composite constant, with result id `id`,
    * whose lanes are the ids of the scalar constants registered for it. */
  function TemporaryConstant(p: Program, t: TypeIds, floats: map<u32, u32>, ints: map<u32, u32>, uints: map<u32, u32>, s: Symbol, id: u32): Result<seq<Instruction>>
    requires s.location == Temporary
  {
    if s.ty == Float4 then
      var l := FloatLanes(GetTemporaryValue(p, s).value);
      Ok([Instruction(OpConstantComposite, [t.float4Type, id, IdOf(floats, l[0]), IdOf(floats, l[1]), IdOf(floats, l[2]), IdOf(floats, l[3])])])
    else if s.ty == Int4 then
      var l := IntLanes(GetTemporaryValueInt(p, s).value);
      Ok([Instruction(OpConstantComposite, [t.int4Type, id, IdOf(ints, l[0]), IdOf(ints, l[1]), IdOf(ints, l[2]), IdOf(ints, l[3])])])
    else if s.ty == Uint4 then
      var l := IntLanes(GetTemporaryValueInt(p, s).value);
      Ok([Instruction(OpConstantComposite, [t.uint4Type, id, IdOf(uints, l[0]), IdOf(uints, l[1]), IdOf(uints, l[2]), IdOf(uints, l[3])])])
    else Err(DeclareTemporaryValueIdsUnsupportedTemporaryType)
  }

  /** `DeclareTemporaryValueIds`, symbol i, when `base` ids were allocated before the pass. */
  function TemporaryStep(p: Program, t: TypeIds, floats: map<u32, u32>, ints: map<u32, u32>, uints: map<u32, u32>, base: nat): nat -> Result<seq<Instruction>>
  {
    (i: nat) =>
      if i < |p.symbols| && p.symbols[i].location == Temporary then
        TemporaryConstant(p, t, floats, ints, uints, p.symbols[i], TemporaryId(p.symbols, base, i))
      else Ok([])
  }

  /** Step i of the loop: symbol i's composite constant when it is a temporary, nothing otherwise. */
  lemma TemporaryStepAt(p: Program, t: TypeIds, floats: map<u32, u32>, ints: map<u32, u32>, uints: map<u32, u32>, base: nat, i: nat)
    requires i < |p.symbols|
    ensures p.symbols[i].location == Temporary ==>
      TemporaryStep(p, t, floats, ints, uints, base)(i) == TemporaryConstant(p, t, floats, ints, uints, p.symbols[i], TemporaryId(p.symbols, base, i))
    ensures p.symbols[i].location != Temporary ==> TemporaryStep(p, t, floats, ints, uints, base)(i) == Ok([])
  {
  }

  /** Once its lanes are registered, a temporary's composite constant is built from the ids of
    * the scalar constants of its lanes, never from the empty id a missing key would give. */
  lemma TemporaryConstantLanes(p: Program, t: TypeIds, floats: map<u32, u32>, ints: map<u32, u32>, uints: map<u32, u32>, base: nat, i: nat)
    requires i < |p.symbols| && p.symbols[i].location == Temporary && ConstantTemporary(p.symbols[i])
    requires LanesRegistered(p, p.symbols[i], floats, ints, uints)
    ensures var r, s := TemporaryStep(p, t, floats, ints, uints, base)(i), p.symbols[i];
      var m, l := LaneMap(s.ty, floats, ints, uints), TemporaryLanes(p, s);
      && r.Ok? && |r.value| == 1 && r.value[0].opcode == OpConstantComposite
      && r.value[0].operands[1] == TemporaryId(p.symbols, base, i)
      && r.value[0].operands[2..] == [m[l[0]], m[l[1]], m[l[2]], m[l[3]]]
  {
    var s := p.symbols[i];
    assert forall k :: 0 <= k < 4 ==> TemporaryLanes(p, s)[k] in LaneMap(s.ty, floats, ints, uints);
  }

  /** The temporary bindings after `DeclareTemporaryValueIds` has seen the first n symbols: each
    * temporary's index is bound to its constant. */
  function TemporaryBindings(syms: seq<Symbol>, prior: map<u32, u32>, base: nat, n: nat): map<u32, u32>
    requires n <= |syms|
  {
    if n == 0 then prior
    else
      var m := TemporaryBindings(syms, prior, base, n - 1);
      if syms[n - 1].location == Temporary then m[syms[n - 1].index := TemporaryId(syms, base, n - 1)] else m
  }

  /** Temporaries get consecutive ids: the k-th temporary gets `base + k + 1`. */
  lemma {:induction false} TemporaryIdsConsecutive(syms: seq<Symbol>, base: nat, i: nat, j: nat)
    requires i < j <= |syms| && syms[i].location == Temporary
    ensures TemporariesBefore(syms, j) >= TemporariesBefore(syms, i) + 1
  {
    if j > i + 1 {
      TemporaryIdsConsecutive(syms, base, i, j - 1);
    }
  }

  /** Every temporary is bound, and, when indices are distinct and the counter has not wrapped,
    * bound to its own constant's id. */
  lemma {:induction false} TemporaryBindingsBound(syms: seq<Symbol>, prior: map<u32, u32>, base: nat, n: nat, i: nat)
    requires i < n <= |syms| && syms[i].location == Temporary
    requires forall j :: i < j < n && syms[j].location == Temporary ==> syms[j].index != syms[i].index
    ensures syms[i].index in TemporaryBindings(syms, prior, base, n)
    ensures TemporaryBindings(syms, prior, base, n)[syms[i].index] == TemporaryId(syms, base, i)
  {
    if n > i + 1 {
      TemporaryBindingsBound(syms, prior, base, n - 1, i);
    }
  }
  // ----- the sections the passes write -----

  /** The decoration passes write annotations (section 8) and the declaration passes types,
    * constants and global variables (section 9) only. */
  lemma InputPassesInSection(p: Program, stage: ShaderType, t: TypeIds, ptrs: map<u32, u32>)
    ensures StepsIn(InputDecorations(p, stage, ptrs), |p.symbols|, 8)
    ensures StepsIn(InputVariables(p, t, ptrs), |p.symbols|, 9)
  {
    assert Rank(OpDecorate) == 8 && Rank(OpVariable) == 9;
  }

  lemma OutputPassesInSection(p: Program, t: TypeIds, ptrs: map<u32, u32>)
    ensures StepsIn(OutputDecorations(p, ptrs), |p.symbols|, 8)
    ensures StepsIn(OutputVariables(p, t, ptrs), |p.symbols|, 9)
  {
    assert Rank(OpDecorate) == 8 && Rank(OpVariable) == 9;
  }

  lemma TexturePassesInSection(p: Program, t: TypeIds, ptrs: map<u32, u32>)
    ensures StepsIn(TextureDecorations(p, ptrs), |p.symbols|, 8)
    ensures StepsIn(TextureVariables(p, t, ptrs), |p.symbols|, 9)
  {
    assert Rank(OpDecorate) == 8 && Rank(OpVariable) == 9;
  }

  lemma MemberPassInSection(p: Program, infos: map<u32, StructInfo>)
    ensures StepsIn(MemberDecorationStep(p, infos), |p.symbols|, 8)
  {
    assert Rank(OpMemberDecorate) == 8;
  }

  /** A loop over the blocks whose step writes one section for every block. */
  lemma OverUnitsInSection(infos: map<u32, StructInfo>, g: (u32, StructInfo) -> seq<Instruction>, n: nat, rank: nat)
    requires forall u, info :: InSection(g(u, info), rank)
    ensures StepsIn(OverUnits(infos, g), n, rank)
  {
    var f, units := OverUnits(infos, g), Units(infos);
    AscendingSpec(infos.Keys);
    forall i | 0 <= i < n && f(i).Ok?
      ensures InSection(f(i).value, rank)
    {
      if i < |units| {
        assert f(i).value == g(units[i], infos[units[i]]);
      } else {
        assert f(i).value == [];
      }
    }
  }

  /** A loop over the blocks always completes. */
  lemma OverUnitsCollect(infos: map<u32, StructInfo>, g: (u32, StructInfo) -> seq<Instruction>, n: nat)
    ensures Collect(OverUnits(infos, g), n).Ok?
  {
    CollectOk(OverUnits(infos, g), n);
  }

  lemma BlockPassesInSection(infos: map<u32, StructInfo>, n: nat)
    ensures StepsIn(BlockDecorationSteps(infos), n, 8)
    ensures StepsIn(OverUnits(infos, BlockTypes), n, 9)
    ensures StepsIn(OverUnits(infos, BlockVariable), n, 9)
  {
    assert Rank(OpDecorate) == 8;
    assert Rank(OpTypeStruct) == 9 && Rank(OpTypePointer) == 9 && Rank(OpVariable) == 9;
    forall u, info
      ensures InSection(BlockDecorations(u, info), 8)
      ensures InSection(BlockTypes(u, info), 9) && InSection(BlockVariable(u, info), 9)
    {
    }
    OverUnitsInSection(infos, BlockDecorations, n, 8);
    OverUnitsInSection(infos, BlockTypes, n, 9);
    OverUnitsInSection(infos, BlockVariable, n, 9);
  }

  lemma ConstantPassInSection(typeId: u32, m: map<u32, u32>, n: nat)
    ensures StepsIn(ConstantSteps(typeId, m), n, 9)
  {
    assert Rank(OpConstant) == 9;
  }

  lemma TemporaryPassInSection(p: Program, t: TypeIds, floats: map<u32, u32>, ints: map<u32, u32>, uints: map<u32, u32>, base: nat)
    ensures StepsIn(TemporaryStep(p, t, floats, ints, uints, base), |p.symbols|, 9)
  {
    assert Rank(OpConstantComposite) == 9;
  }
}

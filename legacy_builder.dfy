/** The earlier `CShaderBuilder` (src/ShaderBuilder.cpp): Float4 inputs and outputs numbered by
  * their own counters, temporaries, constants and uniforms numbered by one shared counter, and
  * textures numbered by their unit. It keeps no variables, no metadata and no integer or boolean
  * payloads. */
module LegacyBuilder {
  import opened Wrappers
  import opened Ir
  import opened ShaderProgram

  const GetTemporaryValueNotTemporary: string := "GetTemporaryValue: not a temporary"

  /** The legacy builder's invariant over a snapshot of its tables: each counter holds, modulo
    * 2^32, the number of symbols drawn from it, and those symbols carry the counter's successive
    * values; every table key was drawn from its counter; inputs, outputs and uniforms have their
    * table entries; inputs and outputs are Float4. */
  ghost predicate LegacyCounted(p: Program, temp: u32, input: u32, output: u32)
  {
    CountersExact(p.symbols, temp, input, output) && KeysDrawn(p) && EntriesRecorded(p)
  }

  /** The counter part of `LegacyCounted`. */
  ghost predicate CountersExact(syms: seq<Symbol>, temp: u32, input: u32, output: u32)
  {
    && Dense(syms, TempCounter) && Dense(syms, InputCounter) && Dense(syms, OutputCounter)
    && temp == CountOf(syms, TempCounter) % U32_LIMIT
    && input == CountOf(syms, InputCounter) % U32_LIMIT
    && output == CountOf(syms, OutputCounter) % U32_LIMIT
  }

  /** The table keys part of `LegacyCounted`. */
  ghost predicate KeysDrawn(p: Program)
  {
    && KeysBelow(p.inputSemantics, CountOf(p.symbols, InputCounter))
    && KeysBelow(p.outputSemantics, CountOf(p.symbols, OutputCounter))
    && KeysBelow(p.uniformNames, CountOf(p.symbols, TempCounter))
    && KeysBelow(p.temporaryValues, CountOf(p.symbols, TempCounter))
  }

  /** The table entries part of `LegacyCounted`. */
  ghost predicate EntriesRecorded(p: Program)
  {
    && Recorded(p.symbols, Input, p.inputSemantics)
    && Recorded(p.symbols, Output, p.outputSemantics)
    && Recorded(p.symbols, Uniform, p.uniformNames)
    && InterfaceIsFloat4(p.symbols)
  }

  predicate InterfaceIsFloat4(syms: seq<Symbol>)
  {
    forall i :: 0 <= i < |syms| && syms[i].location in {Input, Output} ==> syms[i].ty == Float4
  }

  class LegacyShaderBuilder {
    var symbols: seq<Symbol>
    var statements: seq<Statement>
    var currentTempIndex: u32
    var currentInputIndex: u32
    var currentOutputIndex: u32
    var inputSemantics: map<u32, SemanticInfo>
    var outputSemantics: map<u32, SemanticInfo>
    var uniformNames: map<u32, string>
    var temporaryValues: map<u32, Vec4<Float>>

    /** The builder as its generator sees it; the tables it does not have are empty. */
    function Snapshot(): Program
      reads this
    {
      Program(symbols, statements, map[], inputSemantics, outputSemantics, map[],
        uniformNames, temporaryValues, map[], map[])
    }

    ghost predicate Valid()
      reads this
    {
      LegacyCounted(Snapshot(), currentTempIndex, currentInputIndex, currentOutputIndex)
    }

    /** A new builder: no symbols, no statements, every counter at 0. */
    constructor ()
      ensures Valid()
      ensures symbols == [] && statements == []
      ensures currentTempIndex == 0 && currentInputIndex == 0 && currentOutputIndex == 0
      ensures inputSemantics == map[] && outputSemantics == map[]
      ensures uniformNames == map[] && temporaryValues == map[]
    {
      symbols := [];
      statements := [];
      currentTempIndex := 0;
      currentInputIndex := 0;
      currentOutputIndex := 0;
      inputSemantics := map[];
      outputSemantics := map[];
      uniformNames := map[];
      temporaryValues := map[];
    }

    /** `GetTemporaryValue`: the payload recorded for a temporary, (0, 0, 0, 0) when none was;
      * asking for any other symbol is a contract violation. */
    function GetTemporaryValue(sym: Symbol): (r: Result<Vec4<Float>>)
      reads this
      ensures r.Ok? <==> sym.location == Temporary
      ensures r.Ok? && sym.index in temporaryValues ==> r.value == temporaryValues[sym.index]
      ensures r.Ok? && sym.index !in temporaryValues ==> r.value == Vec4(FloatZero, FloatZero, FloatZero, FloatZero)
    {
      if sym.location != Temporary then Err(GetTemporaryValueNotTemporary)
      else if sym.index in temporaryValues then Ok(temporaryValues[sym.index])
      else Ok(Vec4(FloatZero, FloatZero, FloatZero, FloatZero))
    }

    /** `InsertStatement`: appends exactly one statement; the earlier ones are unchanged. */
    method InsertStatement(s: Statement)
      requires Valid()
      modifies this`statements
      ensures Valid()
      ensures statements == old(statements) + [s]
    {
      statements := statements + [s];
    }

    /** `CreateInput`: a Float4 input numbered by the input counter, its semantic recorded under
      * that number. */
    method CreateInput(semantic: Semantic, semanticIndex: u32) returns (sym: Symbol)
      requires Valid()
      modifies this`symbols, this`currentInputIndex, this`inputSemantics
      ensures Valid()
      ensures sym == Symbol(Float4, Input, 0, old(currentInputIndex))
      ensures symbols == old(symbols) + [sym]
      ensures currentInputIndex == ToU32(old(currentInputIndex) + 1)
      ensures inputSemantics == Insert(old(inputSemantics), sym.index, SemanticInfo(semantic, semanticIndex))
      ensures CountOf(old(symbols), InputCounter) < U32_LIMIT ==>
        GetInputSemantic(Snapshot(), sym) == Ok(SemanticInfo(semantic, semanticIndex))
    {
      ghost var before := Snapshot();
      InputAdded(before, currentTempIndex, currentInputIndex, currentOutputIndex, SemanticInfo(semantic, semanticIndex));
      sym := Symbol(Float4, Input, 0, currentInputIndex);
      currentInputIndex := ToU32(currentInputIndex + 1);
      symbols := symbols + [sym];
      inputSemantics := Insert(inputSemantics, sym.index, SemanticInfo(semantic, semanticIndex));
      assert Snapshot() == before.(symbols := before.symbols + [sym], inputSemantics := inputSemantics);
    }

    /** `CreateOutput`: a Float4 output numbered by the output counter, its semantic recorded
      * under that number. */
    method CreateOutput(semantic: Semantic, semanticIndex: u32) returns (sym: Symbol)
      requires Valid()
      modifies this`symbols, this`currentOutputIndex, this`outputSemantics
      ensures Valid()
      ensures sym == Symbol(Float4, Output, 0, old(currentOutputIndex))
      ensures symbols == old(symbols) + [sym]
      ensures currentOutputIndex == ToU32(old(currentOutputIndex) + 1)
      ensures outputSemantics == Insert(old(outputSemantics), sym.index, SemanticInfo(semantic, semanticIndex))
      ensures CountOf(old(symbols), OutputCounter) < U32_LIMIT ==>
        GetOutputSemantic(Snapshot(), sym) == Ok(SemanticInfo(semantic, semanticIndex))
    {
      ghost var before := Snapshot();
      OutputAdded(before, currentTempIndex, currentInputIndex, currentOutputIndex, SemanticInfo(semantic, semanticIndex));
      sym := Symbol(Float4, Output, 0, currentOutputIndex);
      currentOutputIndex := ToU32(currentOutputIndex + 1);
      symbols := symbols + [sym];
      outputSemantics := Insert(outputSemantics, sym.index, SemanticInfo(semantic, semanticIndex));
      assert Snapshot() == before.(symbols := before.symbols + [sym], outputSemantics := outputSemantics);
    }

    /** `CreateTemporary`: a Float4 temporary numbered by the shared counter. */
    method CreateTemporary() returns (sym: Symbol)
      requires Valid()
      modifies this`symbols, this`currentTempIndex
      ensures Valid()
      ensures sym == Symbol(Float4, Temporary, 0, old(currentTempIndex))
      ensures symbols == old(symbols) + [sym]
      ensures currentTempIndex == ToU32(old(currentTempIndex) + 1)
    {
      ghost var before := Snapshot();
      TemporaryAdded(before, currentTempIndex, currentInputIndex, currentOutputIndex);
      sym := Symbol(Float4, Temporary, 0, currentTempIndex);
      currentTempIndex := ToU32(currentTempIndex + 1);
      symbols := symbols + [sym];
      assert Snapshot() == before.(symbols := before.symbols + [sym]);
    }

    /** `CreateConstant`: a Float4 temporary numbered by the shared counter, carrying the
      * payload. Equal payloads are not shared: every call draws a new index. */
    method CreateConstant(v: Vec4<Float>) returns (sym: Symbol)
      requires Valid()
      modifies this`symbols, this`currentTempIndex, this`temporaryValues
      ensures Valid()
      ensures sym == Symbol(Float4, Temporary, 0, old(currentTempIndex))
      ensures symbols == old(symbols) + [sym]
      ensures currentTempIndex == ToU32(old(currentTempIndex) + 1)
      ensures temporaryValues == Insert(old(temporaryValues), sym.index, v)
      ensures CountOf(old(symbols), TempCounter) < U32_LIMIT ==> GetTemporaryValue(sym) == Ok(v)
    {
      ghost var before := Snapshot();
      ConstantAdded(before, currentTempIndex, currentInputIndex, currentOutputIndex, v);
      sym := Symbol(Float4, Temporary, 0, currentTempIndex);
      currentTempIndex := ToU32(currentTempIndex + 1);
      symbols := symbols + [sym];
      temporaryValues := Insert(temporaryValues, sym.index, v);
      assert Snapshot() == before.(symbols := before.symbols + [sym], temporaryValues := temporaryValues);
    }

    /** `CreateUniformFloat4` and `CreateUniformMatrix` (by `ty`): a named uniform numbered by
      * the shared counter. */
    method CreateUniform(ty: SymbolType, name: string) returns (sym: Symbol)
      requires Valid()
      requires ty == Float4 || ty == Matrix
      modifies this`symbols, this`currentTempIndex, this`uniformNames
      ensures Valid()
      ensures sym == Symbol(ty, Uniform, 0, old(currentTempIndex))
      ensures symbols == old(symbols) + [sym]
      ensures currentTempIndex == ToU32(old(currentTempIndex) + 1)
      ensures uniformNames == Insert(old(uniformNames), sym.index, name)
      ensures CountOf(old(symbols), TempCounter) < U32_LIMIT ==> GetUniformName(Snapshot(), sym) == Ok(name)
    {
      ghost var before := Snapshot();
      UniformAdded(before, currentTempIndex, currentInputIndex, currentOutputIndex, ty, name);
      sym := Symbol(ty, Uniform, 0, currentTempIndex);
      currentTempIndex := ToU32(currentTempIndex + 1);
      symbols := symbols + [sym];
      uniformNames := Insert(uniformNames, sym.index, name);
      assert Snapshot() == before.(symbols := before.symbols + [sym], uniformNames := uniformNames);
    }

    /** `CreateTexture2D`: a texture whose index is its unit; no counter moves. */
    method CreateTexture2D(unit: u32) returns (sym: Symbol)
      requires Valid()
      modifies this`symbols
      ensures Valid()
      ensures sym == Symbol(Texture2D, Texture, 0, unit)
      ensures symbols == old(symbols) + [sym]
    {
      ghost var before := Snapshot();
      TextureAdded(before, currentTempIndex, currentInputIndex, currentOutputIndex, unit);
      sym := Symbol(Texture2D, Texture, 0, unit);
      symbols := symbols + [sym];
      assert Snapshot() == before.(symbols := before.symbols + [sym]);
    }
  }

  /** The conditions under which appending `s` (and growing the tables to `q`) is one Create*
    * step: `s` takes the current value of the counter it draws from, and its table entry is
    * keyed by that value. */
  ghost predicate Step(p: Program, s: Symbol, q: Program, t: u32, i: u32, o: u32)
  {
    && s.location in {Temporary, Input, Output, Uniform, Texture}
    && (s.location in {Input, Output} ==> s.ty == Float4)
    && (Draws(s, TempCounter) ==> s.index == t)
    && (s.location == Input ==> s.index == i)
    && (s.location == Output ==> s.index == o)
    && q.symbols == p.symbols + [s]
    && q.inputSemantics.Keys == p.inputSemantics.Keys + (if s.location == Input then {s.index} else {})
    && q.outputSemantics.Keys == p.outputSemantics.Keys + (if s.location == Output then {s.index} else {})
    && q.uniformNames.Keys == p.uniformNames.Keys + (if s.location == Uniform then {s.index} else {})
    && q.temporaryValues.Keys <= p.temporaryValues.Keys + (if s.location == Temporary then {s.index} else {})
  }

  /** One Create* step keeps the invariant, with the counter `s` drew from moved on. */
  lemma LegacyAppended(p: Program, s: Symbol, q: Program, t: u32, i: u32, o: u32)
    requires LegacyCounted(p, t, i, o) && Step(p, s, q, t, i, o)
    ensures LegacyCounted(q, Bump(t, Draws(s, TempCounter)), Bump(i, Draws(s, InputCounter)), Bump(o, Draws(s, OutputCounter)))
  {
    CountersStep(p, s, q, t, i, o);
    KeysStep(p, s, q, t, i, o);
    EntriesStep(p, s, q);
  }

  /** Counter `c` moved on by one exactly when `s` drew from it. */
  ghost predicate Grown(p: Program, s: Symbol, q: Program, c: Counter)
  {
    CountOf(q.symbols, c) == CountOf(p.symbols, c) + (if Draws(s, c) then 1 else 0)
  }

  lemma CountersStep(p: Program, s: Symbol, q: Program, t: u32, i: u32, o: u32)
    requires CountersExact(p.symbols, t, i, o) && Step(p, s, q, t, i, o)
    ensures CountersExact(q.symbols, Bump(t, Draws(s, TempCounter)), Bump(i, Draws(s, InputCounter)), Bump(o, Draws(s, OutputCounter)))
    ensures Grown(p, s, q, TempCounter) && Grown(p, s, q, InputCounter) && Grown(p, s, q, OutputCounter)
  {
    AppendKeepsDense(p.symbols, s, TempCounter);
    AppendKeepsDense(p.symbols, s, InputCounter);
    AppendKeepsDense(p.symbols, s, OutputCounter);
    BumpStep(p, q, s, TempCounter, t);
    BumpStep(p, q, s, InputCounter, i);
    BumpStep(p, q, s, OutputCounter, o);
  }

  lemma KeysStep(p: Program, s: Symbol, q: Program, t: u32, i: u32, o: u32)
    requires KeysDrawn(p) && CountersExact(p.symbols, t, i, o) && Step(p, s, q, t, i, o)
    requires Grown(p, s, q, TempCounter) && Grown(p, s, q, InputCounter) && Grown(p, s, q, OutputCounter)
    ensures KeysDrawn(q)
  {
    KeysBelowGrow(p.inputSemantics, q.inputSemantics, CountOf(p.symbols, InputCounter), CountOf(q.symbols, InputCounter),
      s.index, s.location == Input, Draws(s, InputCounter));
    KeysBelowGrow(p.outputSemantics, q.outputSemantics, CountOf(p.symbols, OutputCounter), CountOf(q.symbols, OutputCounter),
      s.index, s.location == Output, Draws(s, OutputCounter));
    KeysBelowGrow(p.uniformNames, q.uniformNames, CountOf(p.symbols, TempCounter), CountOf(q.symbols, TempCounter),
      s.index, s.location == Uniform, Draws(s, TempCounter));
    KeysBelowGrow(p.temporaryValues, q.temporaryValues, CountOf(p.symbols, TempCounter), CountOf(q.symbols, TempCounter),
      s.index, s.location == Temporary, Draws(s, TempCounter));
  }

  lemma EntriesStep(p: Program, s: Symbol, q: Program)
    requires EntriesRecorded(p)
    requires q.symbols == p.symbols + [s]
    requires s.location in {Input, Output} ==> s.ty == Float4
    requires p.inputSemantics.Keys <= q.inputSemantics.Keys && (s.location == Input ==> s.index in q.inputSemantics)
    requires p.outputSemantics.Keys <= q.outputSemantics.Keys && (s.location == Output ==> s.index in q.outputSemantics)
    requires p.uniformNames.Keys <= q.uniformNames.Keys && (s.location == Uniform ==> s.index in q.uniformNames)
    ensures EntriesRecorded(q)
  {
    RecordedGrow(p.symbols, s, Input, p.inputSemantics, q.inputSemantics);
    RecordedGrow(p.symbols, s, Output, p.outputSemantics, q.outputSemantics);
    RecordedGrow(p.symbols, s, Uniform, p.uniformNames, q.uniformNames);
    var t' := q.symbols;
    forall k | 0 <= k < |t'| && t'[k].location in {Input, Output}
      ensures t'[k].ty == Float4
    {
      if k < |p.symbols| {
        assert t'[k] == p.symbols[k];
      }
    }
  }

  /** A table key drawn from a counter that has not wrapped is not in the table yet. */
  lemma NotYetKeyed<V>(m: map<u32, V>, n: nat, k: u32)
    requires KeysBelow(m, n) && n < U32_LIMIT && k == n
    ensures k !in m
  {
  }

  lemma InputAdded(p: Program, t: u32, i: u32, o: u32, info: SemanticInfo)
    requires LegacyCounted(p, t, i, o)
    ensures var sym := Symbol(Float4, Input, 0, i);
      var q := p.(symbols := p.symbols + [sym], inputSemantics := Insert(p.inputSemantics, i, info));
      && LegacyCounted(q, t, ToU32(i + 1), o)
      && (CountOf(p.symbols, InputCounter) < U32_LIMIT ==> GetInputSemantic(q, sym) == Ok(info))
  {
    var sym := Symbol(Float4, Input, 0, i);
    var q := p.(symbols := p.symbols + [sym], inputSemantics := Insert(p.inputSemantics, i, info));
    LegacyAppended(p, sym, q, t, i, o);
    if CountOf(p.symbols, InputCounter) < U32_LIMIT {
      NotYetKeyed(p.inputSemantics, CountOf(p.symbols, InputCounter), i);
    }
  }

  lemma OutputAdded(p: Program, t: u32, i: u32, o: u32, info: SemanticInfo)
    requires LegacyCounted(p, t, i, o)
    ensures var sym := Symbol(Float4, Output, 0, o);
      var q := p.(symbols := p.symbols + [sym], outputSemantics := Insert(p.outputSemantics, o, info));
      && LegacyCounted(q, t, i, ToU32(o + 1))
      && (CountOf(p.symbols, OutputCounter) < U32_LIMIT ==> GetOutputSemantic(q, sym) == Ok(info))
  {
    var sym := Symbol(Float4, Output, 0, o);
    var q := p.(symbols := p.symbols + [sym], outputSemantics := Insert(p.outputSemantics, o, info));
    LegacyAppended(p, sym, q, t, i, o);
    if CountOf(p.symbols, OutputCounter) < U32_LIMIT {
      NotYetKeyed(p.outputSemantics, CountOf(p.symbols, OutputCounter), o);
    }
  }

  lemma TemporaryAdded(p: Program, t: u32, i: u32, o: u32)
    requires LegacyCounted(p, t, i, o)
    ensures var sym := Symbol(Float4, Temporary, 0, t);
      LegacyCounted(p.(symbols := p.symbols + [sym]), ToU32(t + 1), i, o)
  {
    var sym := Symbol(Float4, Temporary, 0, t);
    LegacyAppended(p, sym, p.(symbols := p.symbols + [sym]), t, i, o);
  }

  lemma ConstantAdded(p: Program, t: u32, i: u32, o: u32, v: Vec4<Float>)
    requires LegacyCounted(p, t, i, o)
    ensures var sym := Symbol(Float4, Temporary, 0, t);
      var q := p.(symbols := p.symbols + [sym], temporaryValues := Insert(p.temporaryValues, t, v));
      && LegacyCounted(q, ToU32(t + 1), i, o)
      && (CountOf(p.symbols, TempCounter) < U32_LIMIT ==> q.temporaryValues[t] == v)
  {
    var sym := Symbol(Float4, Temporary, 0, t);
    var q := p.(symbols := p.symbols + [sym], temporaryValues := Insert(p.temporaryValues, t, v));
    LegacyAppended(p, sym, q, t, i, o);
    if CountOf(p.symbols, TempCounter) < U32_LIMIT {
      NotYetKeyed(p.temporaryValues, CountOf(p.symbols, TempCounter), t);
    }
  }

  lemma UniformAdded(p: Program, t: u32, i: u32, o: u32, ty: SymbolType, name: string)
    requires LegacyCounted(p, t, i, o)
    ensures var sym := Symbol(ty, Uniform, 0, t);
      var q := p.(symbols := p.symbols + [sym], uniformNames := Insert(p.uniformNames, t, name));
      && LegacyCounted(q, ToU32(t + 1), i, o)
      && (CountOf(p.symbols, TempCounter) < U32_LIMIT ==> GetUniformName(q, sym) == Ok(name))
  {
    var sym := Symbol(ty, Uniform, 0, t);
    var q := p.(symbols := p.symbols + [sym], uniformNames := Insert(p.uniformNames, t, name));
    LegacyAppended(p, sym, q, t, i, o);
    if CountOf(p.symbols, TempCounter) < U32_LIMIT {
      NotYetKeyed(p.uniformNames, CountOf(p.symbols, TempCounter), t);
    }
  }

  lemma TextureAdded(p: Program, t: u32, i: u32, o: u32, unit: u32)
    requires LegacyCounted(p, t, i, o)
    ensures LegacyCounted(p.(symbols := p.symbols + [Symbol(Texture2D, Texture, 0, unit)]), t, i, o)
  {
    var sym := Symbol(Texture2D, Texture, 0, unit);
    LegacyAppended(p, sym, p.(symbols := p.symbols + [sym]), t, i, o);
  }

  /** Two symbols that drew from the same counter, fewer than 2^32 times, have different
    * indices. */
  lemma {:induction false} DenseDistinct(syms: seq<Symbol>, c: Counter, a: nat, b: nat)
    requires Dense(syms, c) && CountOf(syms, c) < U32_LIMIT
    requires a < b < |syms| && Draws(syms[a], c) && Draws(syms[b], c)
    ensures syms[a].index != syms[b].index
  {
    var prefix := syms[..b];
    assert prefix[a] == syms[a];
    assert prefix[..a] == syms[..a];
    CountOfPrefixBelow(prefix, c, a);
    CountOfPrefixBelow(syms, c, b);
  }
}

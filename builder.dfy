/** `CShaderBuilder` (src/builder/ShaderBuilder.cpp): the symbol table and statement list that
  * the embedding layer fills, with its four per-location index counters. */
module Builder {
  import opened Wrappers
  import opened Ir
  import opened ShaderProgram

  class ShaderBuilder {
    var metadata: map<MetadataType, u32>
    var symbols: seq<Symbol>
    var statements: seq<Statement>
    var currentTempIndex: u32
    var currentVariableIndex: u32
    var currentInputIndex: u32
    var currentOutputIndex: u32
    var inputSemantics: map<u32, SemanticInfo>
    var outputSemantics: map<u32, SemanticInfo>
    var variableNames: map<u32, string>
    var uniformNames: map<u32, string>
    var temporaryValues: map<u32, Vec4<Float>>
    var temporaryValuesInt: map<u32, Vec4<i32>>
    var temporaryValuesBool: map<u32, bool>

    /** The builder as the generators see it. */
    function Snapshot(): Program
      reads this
    {
      Program(symbols, statements, metadata, inputSemantics, outputSemantics, variableNames,
        uniformNames, temporaryValues, temporaryValuesInt, temporaryValuesBool)
    }

    /** Each counter holds, modulo 2^32, the number of symbols drawn from it so far. */
    ghost predicate Valid()
      reads this
    {
      Counted(Snapshot(), currentTempIndex, currentVariableIndex, currentInputIndex, currentOutputIndex)
    }

    /** A new builder: no symbols, no statements, every counter at 0. */
    constructor ()
      ensures Valid()
      ensures symbols == [] && statements == [] && metadata == map[]
      ensures currentTempIndex == 0 && currentVariableIndex == 0
      ensures currentInputIndex == 0 && currentOutputIndex == 0
      ensures inputSemantics == map[] && outputSemantics == map[]
      ensures variableNames == map[] && uniformNames == map[]
      ensures temporaryValues == map[] && temporaryValuesInt == map[] && temporaryValuesBool == map[]
    {
      metadata := map[];
      symbols := [];
      statements := [];
      currentTempIndex := 0;
      currentVariableIndex := 0;
      currentInputIndex := 0;
      currentOutputIndex := 0;
      inputSemantics := map[];
      outputSemantics := map[];
      variableNames := map[];
      uniformNames := map[];
      temporaryValues := map[];
      temporaryValuesInt := map[];
      temporaryValuesBool := map[];
    }

    /** `SetMetadata`: later lookups of `key` see `value`. */
    method SetMetadata(key: MetadataType, value: u32)
      requires Valid()
      modifies this`metadata
      ensures Valid()
      ensures metadata == old(metadata)[key := value]
      ensures forall d: u32 :: GetMetadata(Snapshot(), key, d) == value
    {
      metadata := metadata[key := value];
    }

    /** `InsertStatement`: appends exactly one statement; the earlier ones are unchanged. */
    method InsertStatement(s: Statement)
      requires Valid()
      modifies this`statements
      ensures Valid()
      ensures statements == old(statements) + [s]
    {
      statements := statements + [s];
    }

    /** `CreateInput`, `CreateInputInt` and `CreateInputUint` (by `ty`): a new input symbol
      * numbered by the input counter, with its semantic recorded under that number. */
    method CreateInput(ty: SymbolType, semantic: Semantic, semanticIndex: u32 := 0) returns (sym: Symbol)
      requires Valid()
      requires ty == Float4 || ty == Int4 || ty == Uint4
      modifies this`symbols, this`currentInputIndex, this`inputSemantics
      ensures Valid()
      ensures sym == Symbol(ty, Input, 0, old(currentInputIndex))
      ensures symbols == old(symbols) + [sym]
      ensures currentInputIndex == ToU32(old(currentInputIndex) + 1)
      ensures inputSemantics == Insert(old(inputSemantics), sym.index, SemanticInfo(semantic, semanticIndex))
      ensures CountOf(old(symbols), InputCounter) < U32_LIMIT ==>
        GetInputSemantic(Snapshot(), sym) == Ok(SemanticInfo(semantic, semanticIndex))
    {
      ghost var before := Snapshot();
      InputCreated(before, currentTempIndex, currentVariableIndex, currentInputIndex, currentOutputIndex, ty, SemanticInfo(semantic, semanticIndex));
      sym := Symbol(ty, Input, 0, currentInputIndex);
      currentInputIndex := ToU32(currentInputIndex + 1);
      symbols := symbols + [sym];
      inputSemantics := Insert(inputSemantics, sym.index, SemanticInfo(semantic, semanticIndex));
      assert Snapshot() == before.(symbols := before.symbols + [sym], inputSemantics := inputSemantics);
    }

    /** `CreateOutput`: a new Float4 output symbol numbered by the output counter. */
    method CreateOutput(semantic: Semantic, semanticIndex: u32 := 0) returns (sym: Symbol)
      requires Valid()
      modifies this`symbols, this`currentOutputIndex, this`outputSemantics
      ensures Valid()
      ensures sym == Symbol(Float4, Output, 0, old(currentOutputIndex))
      ensures symbols == old(symbols) + [sym]
      ensures currentOutputIndex == ToU32(old(currentOutputIndex) + 1)
      ensures outputSemantics == Insert(old(outputSemantics), sym.index, SemanticInfo(semantic, semanticIndex))
      ensures CountOf(old(symbols), OutputCounter) < U32_LIMIT ==>
        GetOutputSemantic(Snapshot(), sym) == Ok(SemanticInfo(semantic, semanticIndex))
    {
      ghost var before := Snapshot();
      OutputCreated(before, currentTempIndex, currentVariableIndex, currentInputIndex, currentOutputIndex, SemanticInfo(semantic, semanticIndex));
      sym := Symbol(Float4, Output, 0, currentOutputIndex);
      currentOutputIndex := ToU32(currentOutputIndex + 1);
      symbols := symbols + [sym];
      outputSemantics := Insert(outputSemantics, sym.index, SemanticInfo(semantic, semanticIndex));
      assert Snapshot() == before.(symbols := before.symbols + [sym], outputSemantics := outputSemantics);
    }

    /** `CreateVariableFloat`, `CreateVariableInt`, `CreateVariableUint` and
      * `CreateVariableBool` (by `ty`): a named variable numbered by the variable counter. */
    method CreateVariable(ty: SymbolType, name: string) returns (sym: Symbol)
      requires Valid()
      requires ty == Float4 || ty == Int4 || ty == Uint4 || ty == Bool
      modifies this`symbols, this`currentVariableIndex, this`variableNames
      ensures Valid()
      ensures sym == Symbol(ty, Variable, 0, old(currentVariableIndex))
      ensures symbols == old(symbols) + [sym]
      ensures currentVariableIndex == ToU32(old(currentVariableIndex) + 1)
      ensures variableNames == Insert(old(variableNames), sym.index, name)
      ensures CountOf(old(symbols), VariableCounter) < U32_LIMIT ==>
        GetVariableName(Snapshot(), sym) == Ok(name)
    {
      ghost var before := Snapshot();
      VariableCreated(before, currentTempIndex, currentVariableIndex, currentInputIndex, currentOutputIndex, ty, name);
      sym := Symbol(ty, Variable, 0, currentVariableIndex);
      currentVariableIndex := ToU32(currentVariableIndex + 1);
      symbols := symbols + [sym];
      variableNames := Insert(variableNames, sym.index, name);
      assert Snapshot() == before.(symbols := before.symbols + [sym], variableNames := variableNames);
    }

    /** `CreateTemporary`, `CreateTemporaryBool`, `CreateTemporaryInt` and
      * `CreateTemporaryUint` (by `ty`): a computed temporary numbered by the shared counter. */
    method CreateTemporary(ty: SymbolType) returns (sym: Symbol)
      requires Valid()
      requires ty == Float4 || ty == Bool || ty == Int4 || ty == Uint4
      modifies this`symbols, this`currentTempIndex
      ensures Valid()
      ensures sym == Symbol(ty, Temporary, 0, old(currentTempIndex))
      ensures symbols == old(symbols) + [sym]
      ensures currentTempIndex == ToU32(old(currentTempIndex) + 1)
    {
      ghost var before := Snapshot();
      TemporaryCreated(before, currentTempIndex, currentVariableIndex, currentInputIndex, currentOutputIndex, ty);
      sym := Symbol(ty, Temporary, 0, currentTempIndex);
      currentTempIndex := ToU32(currentTempIndex + 1);
      symbols := symbols + [sym];
      assert Snapshot() == before.(symbols := before.symbols + [sym]);
    }

    /** `CreateConstant`: a Float4 temporary carrying a payload. Equal payloads are not shared:
      * every call draws a new index. */
    method CreateConstant(v: Vec4<Float>) returns (sym: Symbol)
      requires Valid()
      modifies this`symbols, this`currentTempIndex, this`temporaryValues
      ensures Valid()
      ensures sym == Symbol(Float4, Temporary, 0, old(currentTempIndex))
      ensures symbols == old(symbols) + [sym]
      ensures currentTempIndex == ToU32(old(currentTempIndex) + 1)
      ensures temporaryValues == Insert(old(temporaryValues), sym.index, v)
      ensures CountOf(old(symbols), TempCounter) < U32_LIMIT ==>
        GetTemporaryValue(Snapshot(), sym) == Ok(v)
    {
      ghost var before := Snapshot();
      ConstantCreated(before, currentTempIndex, currentVariableIndex, currentInputIndex, currentOutputIndex, v);
      sym := Symbol(Float4, Temporary, 0, currentTempIndex);
      currentTempIndex := ToU32(currentTempIndex + 1);
      symbols := symbols + [sym];
      temporaryValues := Insert(temporaryValues, sym.index, v);
      assert Snapshot() == before.(symbols := before.symbols + [sym], temporaryValues := temporaryValues);
    }

    /** `CreateConstantInt`: an Int4 temporary carrying a payload. */
    method CreateConstantInt(v: Vec4<i32>) returns (sym: Symbol)
      requires Valid()
      modifies this`symbols, this`currentTempIndex, this`temporaryValuesInt
      ensures Valid()
      ensures sym == Symbol(Int4, Temporary, 0, old(currentTempIndex))
      ensures symbols == old(symbols) + [sym]
      ensures currentTempIndex == ToU32(old(currentTempIndex) + 1)
      ensures temporaryValuesInt == Insert(old(temporaryValuesInt), sym.index, v)
      ensures CountOf(old(symbols), TempCounter) < U32_LIMIT ==>
        GetTemporaryValueInt(Snapshot(), sym) == Ok(v)
    {
      ghost var before := Snapshot();
      ConstantIntCreated(before, currentTempIndex, currentVariableIndex, currentInputIndex, currentOutputIndex, Int4, v);
      sym := Symbol(Int4, Temporary, 0, currentTempIndex);
      currentTempIndex := ToU32(currentTempIndex + 1);
      symbols := symbols + [sym];
      temporaryValuesInt := Insert(temporaryValuesInt, sym.index, v);
      assert Snapshot() == before.(symbols := before.symbols + [sym], temporaryValuesInt := temporaryValuesInt);
    }

    /** `CreateConstantUint`: a Uint4 temporary; its unsigned lanes are stored in the signed
      * integer payload table, i.e. reinterpreted as `int32`. */
    method CreateConstantUint(v: Vec4<u32>) returns (sym: Symbol)
      requires Valid()
      modifies this`symbols, this`currentTempIndex, this`temporaryValuesInt
      ensures Valid()
      ensures sym == Symbol(Uint4, Temporary, 0, old(currentTempIndex))
      ensures symbols == old(symbols) + [sym]
      ensures currentTempIndex == ToU32(old(currentTempIndex) + 1)
      ensures temporaryValuesInt ==
        Insert(old(temporaryValuesInt), sym.index, Vec4(ToI32(v.x), ToI32(v.y), ToI32(v.z), ToI32(v.w)))
      ensures CountOf(old(symbols), TempCounter) < U32_LIMIT ==>
        && GetTemporaryValueInt(Snapshot(), sym).Ok?
        && var r := GetTemporaryValueInt(Snapshot(), sym).value;
           ToU32(r.x) == v.x && ToU32(r.y) == v.y && ToU32(r.z) == v.z && ToU32(r.w) == v.w
    {
      ghost var before := Snapshot();
      ConstantIntCreated(before, currentTempIndex, currentVariableIndex, currentInputIndex, currentOutputIndex, Uint4, Vec4(ToI32(v.x), ToI32(v.y), ToI32(v.z), ToI32(v.w)));
      I32RoundTrip(v.x);
      I32RoundTrip(v.y);
      I32RoundTrip(v.z);
      I32RoundTrip(v.w);
      sym := Symbol(Uint4, Temporary, 0, currentTempIndex);
      currentTempIndex := ToU32(currentTempIndex + 1);
      symbols := symbols + [sym];
      temporaryValuesInt := Insert(temporaryValuesInt, sym.index, Vec4(ToI32(v.x), ToI32(v.y), ToI32(v.z), ToI32(v.w)));
      assert Snapshot() == before.(symbols := before.symbols + [sym], temporaryValuesInt := temporaryValuesInt);
    }

    /** `CreateConstantBool`: a Bool temporary carrying a payload. */
    method CreateConstantBool(v: bool) returns (sym: Symbol)
      requires Valid()
      modifies this`symbols, this`currentTempIndex, this`temporaryValuesBool
      ensures Valid()
      ensures sym == Symbol(Bool, Temporary, 0, old(currentTempIndex))
      ensures symbols == old(symbols) + [sym]
      ensures currentTempIndex == ToU32(old(currentTempIndex) + 1)
      ensures temporaryValuesBool == Insert(old(temporaryValuesBool), sym.index, v)
      ensures CountOf(old(symbols), TempCounter) < U32_LIMIT ==>
        GetTemporaryValueBool(Snapshot(), sym) == Ok(v)
    {
      ghost var before := Snapshot();
      ConstantBoolCreated(before, currentTempIndex, currentVariableIndex, currentInputIndex, currentOutputIndex, v);
      sym := Symbol(Bool, Temporary, 0, currentTempIndex);
      currentTempIndex := ToU32(currentTempIndex + 1);
      symbols := symbols + [sym];
      temporaryValuesBool := Insert(temporaryValuesBool, sym.index, v);
      assert Snapshot() == before.(symbols := before.symbols + [sym], temporaryValuesBool := temporaryValuesBool);
    }

    /** `CreateUniformFloat4`, `CreateUniformInt4`, `CreateUniformMatrix`,
      * `CreateUniformArrayUint` and `CreateUniformArrayUchar` (by `ty`): a named uniform in
      * `unit`, numbered by the counter it shares with temporaries. */
    method CreateUniform(ty: SymbolType, name: string, unit: u32 := 0) returns (sym: Symbol)
      requires Valid()
      requires ty == Float4 || ty == Int4 || ty == Matrix || ty == ArrayUint || ty == ArrayUchar
      modifies this`symbols, this`currentTempIndex, this`uniformNames
      ensures Valid()
      ensures sym == Symbol(ty, Uniform, unit, old(currentTempIndex))
      ensures symbols == old(symbols) + [sym]
      ensures currentTempIndex == ToU32(old(currentTempIndex) + 1)
      ensures uniformNames == Insert(old(uniformNames), sym.index, name)
      ensures CountOf(old(symbols), TempCounter) < U32_LIMIT ==>
        GetUniformName(Snapshot(), sym) == Ok(name)
    {
      ghost var before := Snapshot();
      UniformCreated(before, currentTempIndex, currentVariableIndex, currentInputIndex, currentOutputIndex, ty, unit, name);
      sym := Symbol(ty, Uniform, unit, currentTempIndex);
      currentTempIndex := ToU32(currentTempIndex + 1);
      symbols := symbols + [sym];
      uniformNames := Insert(uniformNames, sym.index, name);
      assert Snapshot() == before.(symbols := before.symbols + [sym], uniformNames := uniformNames);
    }

    /** `CreateTexture2D` and `CreateImage2DUint` (by `ty`): a texture bound to `unit`. It draws
      * no counter: its index is always -1. */
    method CreateTexture(ty: SymbolType, unit: u32) returns (sym: Symbol)
      requires Valid()
      requires ty == Texture2D || ty == Image2DUint
      modifies this`symbols
      ensures Valid()
      ensures sym == Symbol(ty, Texture, unit, NoIndex)
      ensures symbols == old(symbols) + [sym]
    {
      ghost var before := Snapshot();
      TextureCreated(before, currentTempIndex, currentVariableIndex, currentInputIndex, currentOutputIndex, ty, unit);
      sym := Symbol(ty, Texture, unit, NoIndex);
      symbols := symbols + [sym];
      assert Snapshot() == before.(symbols := before.symbols + [sym]);
    }

    /** `CreateOptionalInput`: `CreateInput` when `available`, otherwise the null symbol and no
      * change. */
    method CreateOptionalInput(available: bool, semantic: Semantic, semanticIndex: u32 := 0) returns (sym: Symbol)
      requires Valid()
      modifies this`symbols, this`currentInputIndex, this`inputSemantics
      ensures Valid()
      ensures !available ==>
        && sym == NullSymbol && symbols == old(symbols)
        && currentInputIndex == old(currentInputIndex) && inputSemantics == old(inputSemantics)
      ensures available ==>
        && sym == Symbol(Float4, Input, 0, old(currentInputIndex))
        && symbols == old(symbols) + [sym] && currentInputIndex == ToU32(old(currentInputIndex) + 1)
        && inputSemantics == Insert(old(inputSemantics), sym.index, SemanticInfo(semantic, semanticIndex))
    {
      if available {
        sym := CreateInput(Float4, semantic, semanticIndex);
      } else {
        sym := NullSymbol;
      }
    }

    /** `CreateOptionalOutput`: `CreateOutput` when `available`, otherwise the null symbol and
      * no change. */
    method CreateOptionalOutput(available: bool, semantic: Semantic, semanticIndex: u32 := 0) returns (sym: Symbol)
      requires Valid()
      modifies this`symbols, this`currentOutputIndex, this`outputSemantics
      ensures Valid()
      ensures !available ==>
        && sym == NullSymbol && symbols == old(symbols)
        && currentOutputIndex == old(currentOutputIndex) && outputSemantics == old(outputSemantics)
      ensures available ==>
        && sym == Symbol(Float4, Output, 0, old(currentOutputIndex))
        && symbols == old(symbols) + [sym] && currentOutputIndex == ToU32(old(currentOutputIndex) + 1)
        && outputSemantics == Insert(old(outputSemantics), sym.index, SemanticInfo(semantic, semanticIndex))
    {
      if available {
        sym := CreateOutput(semantic, semanticIndex);
      } else {
        sym := NullSymbol;
      }
    }

    /** `CreateOptionalUniformMatrix`: `CreateUniformMatrix` in the default unit 0 when
      * `available`, otherwise the null symbol and no change. */
    method CreateOptionalUniformMatrix(available: bool, name: string) returns (sym: Symbol)
      requires Valid()
      modifies this`symbols, this`currentTempIndex, this`uniformNames
      ensures Valid()
      ensures !available ==>
        && sym == NullSymbol && symbols == old(symbols)
        && currentTempIndex == old(currentTempIndex) && uniformNames == old(uniformNames)
      ensures available ==>
        && sym == Symbol(Matrix, Uniform, 0, old(currentTempIndex))
        && symbols == old(symbols) + [sym] && currentTempIndex == ToU32(old(currentTempIndex) + 1)
        && uniformNames == Insert(old(uniformNames), sym.index, name)
    {
      if available {
        sym := CreateUniform(Matrix, name);
      } else {
        sym := NullSymbol;
      }
    }
  }

  // ----- one Create* step on the program -----

  lemma InputCreated(p: Program, t: u32, v: u32, i: u32, o: u32, ty: SymbolType, info: SemanticInfo)
    requires Counted(p, t, v, i, o)
    ensures var sym := Symbol(ty, Input, 0, i);
      var q := p.(symbols := p.symbols + [sym], inputSemantics := Insert(p.inputSemantics, i, info));
      && Counted(q, t, v, ToU32(i + 1), o)
      && (CountOf(p.symbols, InputCounter) < U32_LIMIT ==> GetInputSemantic(q, sym) == Ok(info))
  {
    var sym := Symbol(ty, Input, 0, i);
    var q := p.(symbols := p.symbols + [sym], inputSemantics := Insert(p.inputSemantics, i, info));
    AppendKeepsCounted(p, sym, q, t, v, i, o, t, v, ToU32(i + 1), o);
    Fresh(p, InputCounter, q.inputSemantics, p.inputSemantics);
  }

  lemma OutputCreated(p: Program, t: u32, v: u32, i: u32, o: u32, info: SemanticInfo)
    requires Counted(p, t, v, i, o)
    ensures var sym := Symbol(Float4, Output, 0, o);
      var q := p.(symbols := p.symbols + [sym], outputSemantics := Insert(p.outputSemantics, o, info));
      && Counted(q, t, v, i, ToU32(o + 1))
      && (CountOf(p.symbols, OutputCounter) < U32_LIMIT ==> GetOutputSemantic(q, sym) == Ok(info))
  {
    var sym := Symbol(Float4, Output, 0, o);
    var q := p.(symbols := p.symbols + [sym], outputSemantics := Insert(p.outputSemantics, o, info));
    AppendKeepsCounted(p, sym, q, t, v, i, o, t, v, i, ToU32(o + 1));
    Fresh(p, OutputCounter, q.outputSemantics, p.outputSemantics);
  }

  lemma VariableCreated(p: Program, t: u32, v: u32, i: u32, o: u32, ty: SymbolType, name: string)
    requires Counted(p, t, v, i, o)
    ensures var sym := Symbol(ty, Variable, 0, v);
      var q := p.(symbols := p.symbols + [sym], variableNames := Insert(p.variableNames, v, name));
      && Counted(q, t, ToU32(v + 1), i, o)
      && (CountOf(p.symbols, VariableCounter) < U32_LIMIT ==> GetVariableName(q, sym) == Ok(name))
  {
    var sym := Symbol(ty, Variable, 0, v);
    var q := p.(symbols := p.symbols + [sym], variableNames := Insert(p.variableNames, v, name));
    AppendKeepsCounted(p, sym, q, t, v, i, o, t, ToU32(v + 1), i, o);
    Fresh(p, VariableCounter, q.variableNames, p.variableNames);
  }

  lemma TemporaryCreated(p: Program, t: u32, v: u32, i: u32, o: u32, ty: SymbolType)
    requires Counted(p, t, v, i, o)
    ensures Counted(p.(symbols := p.symbols + [Symbol(ty, Temporary, 0, t)]), ToU32(t + 1), v, i, o)
  {
    var sym := Symbol(ty, Temporary, 0, t);
    AppendKeepsCounted(p, sym, p.(symbols := p.symbols + [sym]), t, v, i, o, ToU32(t + 1), v, i, o);
  }

  lemma ConstantCreated(p: Program, t: u32, v: u32, i: u32, o: u32, value: Vec4<Float>)
    requires Counted(p, t, v, i, o)
    ensures var sym := Symbol(Float4, Temporary, 0, t);
      var q := p.(symbols := p.symbols + [sym], temporaryValues := Insert(p.temporaryValues, t, value));
      && Counted(q, ToU32(t + 1), v, i, o)
      && (CountOf(p.symbols, TempCounter) < U32_LIMIT ==> GetTemporaryValue(q, sym) == Ok(value))
  {
    var sym := Symbol(Float4, Temporary, 0, t);
    var q := p.(symbols := p.symbols + [sym], temporaryValues := Insert(p.temporaryValues, t, value));
    AppendKeepsCounted(p, sym, q, t, v, i, o, ToU32(t + 1), v, i, o);
    Fresh(p, TempCounter, q.temporaryValues, p.temporaryValues);
  }

  lemma ConstantIntCreated(p: Program, t: u32, v: u32, i: u32, o: u32, ty: SymbolType, value: Vec4<i32>)
    requires Counted(p, t, v, i, o) && (ty == Int4 || ty == Uint4)
    ensures var sym := Symbol(ty, Temporary, 0, t);
      var q := p.(symbols := p.symbols + [sym], temporaryValuesInt := Insert(p.temporaryValuesInt, t, value));
      && Counted(q, ToU32(t + 1), v, i, o)
      && (CountOf(p.symbols, TempCounter) < U32_LIMIT ==> GetTemporaryValueInt(q, sym) == Ok(value))
  {
    var sym := Symbol(ty, Temporary, 0, t);
    var q := p.(symbols := p.symbols + [sym], temporaryValuesInt := Insert(p.temporaryValuesInt, t, value));
    AppendKeepsCounted(p, sym, q, t, v, i, o, ToU32(t + 1), v, i, o);
    Fresh(p, TempCounter, q.temporaryValuesInt, p.temporaryValuesInt);
  }

  lemma ConstantBoolCreated(p: Program, t: u32, v: u32, i: u32, o: u32, value: bool)
    requires Counted(p, t, v, i, o)
    ensures var sym := Symbol(Bool, Temporary, 0, t);
      var q := p.(symbols := p.symbols + [sym], temporaryValuesBool := Insert(p.temporaryValuesBool, t, value));
      && Counted(q, ToU32(t + 1), v, i, o)
      && (CountOf(p.symbols, TempCounter) < U32_LIMIT ==> GetTemporaryValueBool(q, sym) == Ok(value))
  {
    var sym := Symbol(Bool, Temporary, 0, t);
    var q := p.(symbols := p.symbols + [sym], temporaryValuesBool := Insert(p.temporaryValuesBool, t, value));
    AppendKeepsCounted(p, sym, q, t, v, i, o, ToU32(t + 1), v, i, o);
    Fresh(p, TempCounter, q.temporaryValuesBool, p.temporaryValuesBool);
  }

  lemma UniformCreated(p: Program, t: u32, v: u32, i: u32, o: u32, ty: SymbolType, unit: u32, name: string)
    requires Counted(p, t, v, i, o)
    ensures var sym := Symbol(ty, Uniform, unit, t);
      var q := p.(symbols := p.symbols + [sym], uniformNames := Insert(p.uniformNames, t, name));
      && Counted(q, ToU32(t + 1), v, i, o)
      && (CountOf(p.symbols, TempCounter) < U32_LIMIT ==> GetUniformName(q, sym) == Ok(name))
  {
    var sym := Symbol(ty, Uniform, unit, t);
    var q := p.(symbols := p.symbols + [sym], uniformNames := Insert(p.uniformNames, t, name));
    AppendKeepsCounted(p, sym, q, t, v, i, o, ToU32(t + 1), v, i, o);
    Fresh(p, TempCounter, q.uniformNames, p.uniformNames);
  }

  lemma TextureCreated(p: Program, t: u32, v: u32, i: u32, o: u32, ty: SymbolType, unit: u32)
    requires Counted(p, t, v, i, o)
    ensures Counted(p.(symbols := p.symbols + [Symbol(ty, Texture, unit, NoIndex)]), t, v, i, o)
  {
    var sym := Symbol(ty, Texture, unit, NoIndex);
    AppendKeepsCounted(p, sym, p.(symbols := p.symbols + [sym]), t, v, i, o, t, v, i, o);
  }

  /** Before the counter `c` wraps, its current value is not yet a key of a table whose keys
    * it bounds. */
  lemma Fresh<V>(before: Program, c: Counter, after: map<u32, V>, m: map<u32, V>)
    requires KeysBelow(m, CountOf(before.symbols, c))
    ensures CountOf(before.symbols, c) < U32_LIMIT ==> CountOf(before.symbols, c) % U32_LIMIT !in m
  {
  }
}

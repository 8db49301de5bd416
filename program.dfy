/** The read-only view of a built shader that the generators consume (`const CShaderBuilder&`):
  * the symbol table, the statement list and the side tables, with the builder's lookups
  * (src/builder/ShaderBuilder.cpp) as pure functions. */
module ShaderProgram {
  import opened Wrappers
  import opened Ir

  // ----- failure messages (the source asserts; the model stops with one of these) -----

  const GetInputSemanticNotInput: string := "GetInputSemantic: not an input"
  const GetInputSemanticUnknownInput: string := "GetInputSemantic: unknown input"
  const GetOutputSemanticNotOutput: string := "GetOutputSemantic: not an output"
  const GetOutputSemanticUnknownOutput: string := "GetOutputSemantic: unknown output"
  const GetVariableNameNotVariable: string := "GetVariableName: not a variable"
  const GetVariableNameUnknownVariable: string := "GetVariableName: unknown variable"
  const GetUniformNameNotUniform: string := "GetUniformName: not a uniform"
  const GetUniformNameUnknownUniform: string := "GetUniformName: unknown uniform"
  const GetTemporaryValueNotFloat4Temporary: string := "GetTemporaryValue: not a Float4 temporary"
  const GetTemporaryValueIntNotInt4OrUint4Temporary: string := "GetTemporaryValueInt: not an Int4 or Uint4 temporary"
  const GetTemporaryValueBoolNotBoolTemporary: string := "GetTemporaryValueBool: not a Bool temporary"

  datatype Program = Program(
    symbols: seq<Symbol>,
    statements: seq<Statement>,
    metadata: map<MetadataType, u32>,
    inputSemantics: map<u32, SemanticInfo>,
    outputSemantics: map<u32, SemanticInfo>,
    variableNames: map<u32, string>,
    uniformNames: map<u32, string>,
    temporaryValues: map<u32, Vec4<Float>>,
    temporaryValuesInt: map<u32, Vec4<i32>>,
    temporaryValuesBool: map<u32, bool>)

  /** The builder's four index counters. Temporaries, constants and uniforms share one. */
  datatype Counter = TempCounter | VariableCounter | InputCounter | OutputCounter

  /** The counter a symbol's index was drawn from; textures and null symbols draw from none. */
  function CounterOf(s: Symbol): Option<Counter>
  {
    match s.location
    case Temporary | Uniform => Some(TempCounter)
    case Variable => Some(VariableCounter)
    case Input => Some(InputCounter)
    case Output => Some(OutputCounter)
    case _ => None
  }

  predicate Draws(s: Symbol, c: Counter)
  {
    CounterOf(s) == Some(c)
  }

  /** How many symbols of `syms` drew from counter `c`. */
  function CountOf(syms: seq<Symbol>, c: Counter): nat
  {
    if syms == [] then 0
    else CountOf(syms[..|syms| - 1], c) + (if Draws(syms[|syms| - 1], c) then 1 else 0)
  }

  /** The indices of the symbols that drew from `c`, in creation order. */
  function IndicesOf(syms: seq<Symbol>, c: Counter): seq<nat>
  {
    if syms == [] then []
    else
      var last := syms[|syms| - 1];
      IndicesOf(syms[..|syms| - 1], c) + (if Draws(last, c) then [last.index as nat] else [])
  }

  function Range(n: nat): (r: seq<nat>)
    ensures |r| == n && forall i :: 0 <= i < n ==> r[i] == i
  {
    if n == 0 then [] else Range(n - 1) + [n - 1]
  }

  /** Each symbol that drew from `c` holds the value the (wrapping, 32-bit) counter had when
    * the symbol was created. */
  predicate Dense(syms: seq<Symbol>, c: Counter)
  {
    forall i :: 0 <= i < |syms| && Draws(syms[i], c) ==> syms[i].index == CountOf(syms[..i], c) % U32_LIMIT
  }

  lemma {:induction false} CountOfPrefixBelow(syms: seq<Symbol>, c: Counter, i: nat)
    requires i < |syms| && Draws(syms[i], c)
    ensures CountOf(syms[..i], c) < CountOf(syms, c)
  {
    var init := syms[..|syms| - 1];
    if i < |syms| - 1 {
      assert init[..i] == syms[..i];
      CountOfPrefixBelow(init, c, i);
    } else {
      assert init == syms[..i];
    }
  }

  /** As long as the counter has not wrapped, the symbols drawn from one counter are numbered
    * 0, 1, 2, ... in creation order. */
  lemma {:induction false} DenseIndicesAreRange(syms: seq<Symbol>, c: Counter)
    requires Dense(syms, c)
    requires CountOf(syms, c) <= U32_LIMIT
    ensures IndicesOf(syms, c) == Range(CountOf(syms, c))
  {
    if syms != [] {
      var init := syms[..|syms| - 1];
      forall i | 0 <= i < |init| && Draws(init[i], c)
        ensures init[i].index == CountOf(init[..i], c) % U32_LIMIT
      {
        assert init[..i] == syms[..i];
      }
      DenseIndicesAreRange(init, c);
      assert syms[..|syms| - 1] == init;
    }
  }

  /** As long as the counter has not wrapped, every index drawn so far is below the counter, so
    * the next symbol's index is fresh. */
  lemma {:induction false} IndicesBelowCount(syms: seq<Symbol>, c: Counter)
    requires Dense(syms, c)
    requires CountOf(syms, c) <= U32_LIMIT
    ensures forall i :: 0 <= i < |syms| && Draws(syms[i], c) ==> syms[i].index < CountOf(syms, c)
  {
    forall i | 0 <= i < |syms| && Draws(syms[i], c)
      ensures syms[i].index < CountOf(syms, c)
    {
      CountOfPrefixBelow(syms, c, i);
      var n := CountOf(syms[..i], c);
      assert n < U32_LIMIT && n % U32_LIMIT == n;
    }
  }

  /** Every key of a side table was drawn from a counter that has reached `n`, unless the
    * counter has wrapped. */
  predicate KeysBelow<V>(m: map<u32, V>, n: nat)
  {
    n < U32_LIMIT ==> forall k :: k in m ==> k < n
  }

  /** Each symbol of location `loc` has its index recorded in table `m`. */
  predicate Recorded<V>(syms: seq<Symbol>, loc: Location, m: map<u32, V>)
  {
    forall i :: 0 <= i < |syms| && syms[i].location == loc ==> syms[i].index in m
  }

  /** `std::unordered_map::insert`: adds the entry only when the key is absent; an existing
    * entry is kept. */
  function Insert<V>(m: map<u32, V>, k: u32, v: V): (r: map<u32, V>)
    ensures r.Keys == m.Keys + {k}
    ensures k in m ==> r == m
    ensures k !in m ==> r[k] == v
    ensures forall j :: j in m ==> j in r && r[j] == m[j]
  {
    if k in m then m else m[k := v]
  }

  /** What the builder maintains about the program it builds. */
  predicate WellFormed(p: Program)
  {
    && Dense(p.symbols, TempCounter) && Dense(p.symbols, VariableCounter)
    && Dense(p.symbols, InputCounter) && Dense(p.symbols, OutputCounter)
    && (forall i :: 0 <= i < |p.symbols| && p.symbols[i].location == Texture ==> p.symbols[i].index == NoIndex)
    && Recorded(p.symbols, Input, p.inputSemantics)
    && Recorded(p.symbols, Output, p.outputSemantics)
    && Recorded(p.symbols, Variable, p.variableNames)
    && Recorded(p.symbols, Uniform, p.uniformNames)
    && KeysBelow(p.inputSemantics, CountOf(p.symbols, InputCounter))
    && KeysBelow(p.outputSemantics, CountOf(p.symbols, OutputCounter))
    && KeysBelow(p.variableNames, CountOf(p.symbols, VariableCounter))
    && KeysBelow(p.uniformNames, CountOf(p.symbols, TempCounter))
    && KeysBelow(p.temporaryValues, CountOf(p.symbols, TempCounter))
    && KeysBelow(p.temporaryValuesInt, CountOf(p.symbols, TempCounter))
    && KeysBelow(p.temporaryValuesBool, CountOf(p.symbols, TempCounter))
  }

  /** `GetMetadata`: the value last set for `key`, or `defaultValue` when none was. */
  function GetMetadata(p: Program, key: MetadataType, defaultValue: u32): (r: u32)
    ensures key !in p.metadata ==> r == defaultValue
    ensures key in p.metadata ==> r == p.metadata[key]
  {
    if key in p.metadata then p.metadata[key] else defaultValue
  }

  /** `GetInputSemantic`: the semantic recorded for an input symbol. Asking for a symbol that is
    * not an input, or that was never recorded, is a contract violation. */
  function GetInputSemantic(p: Program, sym: Symbol): (r: Result<SemanticInfo>)
    ensures r.Ok? <==> sym.location == Input && sym.index in p.inputSemantics
    ensures r.Ok? ==> r.value == p.inputSemantics[sym.index]
  {
    if sym.location != Input then Err(GetInputSemanticNotInput)
    else if sym.index !in p.inputSemantics then Err(GetInputSemanticUnknownInput)
    else Ok(p.inputSemantics[sym.index])
  }

  /** `GetOutputSemantic`: the semantic recorded for an output symbol. */
  function GetOutputSemantic(p: Program, sym: Symbol): (r: Result<SemanticInfo>)
    ensures r.Ok? <==> sym.location == Output && sym.index in p.outputSemantics
    ensures r.Ok? ==> r.value == p.outputSemantics[sym.index]
  {
    if sym.location != Output then Err(GetOutputSemanticNotOutput)
    else if sym.index !in p.outputSemantics then Err(GetOutputSemanticUnknownOutput)
    else Ok(p.outputSemantics[sym.index])
  }

  /** `GetVariableName`: the name recorded for a variable symbol. */
  function GetVariableName(p: Program, sym: Symbol): (r: Result<string>)
    ensures r.Ok? <==> sym.location == Variable && sym.index in p.variableNames
    ensures r.Ok? ==> r.value == p.variableNames[sym.index]
  {
    if sym.location != Variable then Err(GetVariableNameNotVariable)
    else if sym.index !in p.variableNames then Err(GetVariableNameUnknownVariable)
    else Ok(p.variableNames[sym.index])
  }

  /** `GetUniformName`: the name recorded for a uniform symbol. */
  function GetUniformName(p: Program, sym: Symbol): (r: Result<string>)
    ensures r.Ok? <==> sym.location == Uniform && sym.index in p.uniformNames
    ensures r.Ok? ==> r.value == p.uniformNames[sym.index]
  {
    if sym.location != Uniform then Err(GetUniformNameNotUniform)
    else if sym.index !in p.uniformNames then Err(GetUniformNameUnknownUniform)
    else Ok(p.uniformNames[sym.index])
  }

  /** `GetTemporaryValue`: the payload of a Float4 temporary, (0, 0, 0, 0) when none was
    * recorded (a computed temporary rather than a constant). */
  function GetTemporaryValue(p: Program, sym: Symbol): (r: Result<Vec4<Float>>)
    ensures r.Ok? <==> sym.location == Temporary && sym.ty == Float4
    ensures r.Ok? && sym.index in p.temporaryValues ==> r.value == p.temporaryValues[sym.index]
    ensures r.Ok? && sym.index !in p.temporaryValues ==> r.value == Vec4(FloatZero, FloatZero, FloatZero, FloatZero)
  {
    if sym.location != Temporary || sym.ty != Float4 then Err(GetTemporaryValueNotFloat4Temporary)
    else if sym.index in p.temporaryValues then Ok(p.temporaryValues[sym.index])
    else Ok(Vec4(FloatZero, FloatZero, FloatZero, FloatZero))
  }

  /** `GetTemporaryValueInt`: the payload of an Int4 or Uint4 temporary, (0, 0, 0, 0) when none
    * was recorded. */
  function GetTemporaryValueInt(p: Program, sym: Symbol): (r: Result<Vec4<i32>>)
    ensures r.Ok? <==> sym.location == Temporary && (sym.ty == Int4 || sym.ty == Uint4)
    ensures r.Ok? && sym.index in p.temporaryValuesInt ==> r.value == p.temporaryValuesInt[sym.index]
    ensures r.Ok? && sym.index !in p.temporaryValuesInt ==> r.value == Vec4(0, 0, 0, 0)
  {
    if sym.location != Temporary || (sym.ty != Int4 && sym.ty != Uint4) then
      Err(GetTemporaryValueIntNotInt4OrUint4Temporary)
    else if sym.index in p.temporaryValuesInt then Ok(p.temporaryValuesInt[sym.index])
    else Ok(Vec4(0, 0, 0, 0))
  }

  /** `GetTemporaryValueBool`: the payload of a Bool temporary, false when none was recorded. */
  function GetTemporaryValueBool(p: Program, sym: Symbol): (r: Result<bool>)
    ensures r.Ok? <==> sym.location == Temporary && sym.ty == Bool
    ensures r.Ok? ==> r.value == (sym.index in p.temporaryValuesBool && p.temporaryValuesBool[sym.index])
  {
    if sym.location != Temporary || sym.ty != Bool then Err(GetTemporaryValueBoolNotBoolTemporary)
    else if sym.index in p.temporaryValuesBool then Ok(p.temporaryValuesBool[sym.index])
    else Ok(false)
  }

  lemma {:induction false} AppendKeepsDense(syms: seq<Symbol>, s: Symbol, c: Counter)
    requires Dense(syms, c)
    requires Draws(s, c) ==> s.index == CountOf(syms, c) % U32_LIMIT
    ensures Dense(syms + [s], c)
    ensures CountOf(syms + [s], c) == CountOf(syms, c) + (if Draws(s, c) then 1 else 0)
  {
    var t := syms + [s];
    assert t[..|t| - 1] == syms;
    forall i | 0 <= i < |t| && Draws(t[i], c)
      ensures t[i].index == CountOf(t[..i], c) % U32_LIMIT
    {
      if i < |syms| {
        assert t[..i] == syms[..i];
      } else {
        assert t[..i] == syms;
      }
    }
  }

  lemma KeysBelowGrow<V>(m: map<u32, V>, m2: map<u32, V>, n: nat, n2: nat, k: u32, added: bool, inc: bool)
    requires KeysBelow(m, n) && n2 == n + (if inc then 1 else 0)
    requires m2.Keys <= m.Keys + (if added then {k} else {})
    requires added ==> inc && k == n % U32_LIMIT
    ensures KeysBelow(m2, n2)
  {
    if added && n + 1 < U32_LIMIT {
      assert k == n;
    }
  }

  lemma RecordedGrow<V>(syms: seq<Symbol>, s: Symbol, loc: Location, m: map<u32, V>, m2: map<u32, V>)
    requires Recorded(syms, loc, m)
    requires m.Keys <= m2.Keys
    requires s.location == loc ==> s.index in m2
    ensures Recorded(syms + [s], loc, m2)
  {
    var t := syms + [s];
    forall i | 0 <= i < |t| && t[i].location == loc
      ensures t[i].index in m2
    {
      if i < |syms| {
        assert t[i] == syms[i];
      }
    }
  }

  /** The side tables of `q` are those of `p`, with the index of `s` added to the table of its
    * location (the name and semantic tables always, the temporary value tables at most). */
  predicate TablesGrow(p: Program, s: Symbol, q: Program)
  {
    && q.inputSemantics.Keys == p.inputSemantics.Keys + (if s.location == Input then {s.index} else {})
    && q.outputSemantics.Keys == p.outputSemantics.Keys + (if s.location == Output then {s.index} else {})
    && q.variableNames.Keys == p.variableNames.Keys + (if s.location == Variable then {s.index} else {})
    && q.uniformNames.Keys == p.uniformNames.Keys + (if s.location == Uniform then {s.index} else {})
    && q.temporaryValues.Keys <= p.temporaryValues.Keys + (if s.location == Temporary then {s.index} else {})
    && q.temporaryValuesInt.Keys <= p.temporaryValuesInt.Keys + (if s.location == Temporary then {s.index} else {})
    && q.temporaryValuesBool.Keys <= p.temporaryValuesBool.Keys + (if s.location == Temporary then {s.index} else {})
  }

  /** Appending one symbol whose index comes from its counter keeps every counter dense and
    * moves the counters it draws from on by one. */
  lemma AppendKeepsCounters(syms: seq<Symbol>, s: Symbol)
    requires forall c :: Dense(syms, c)
    requires forall i :: 0 <= i < |syms| && syms[i].location == Texture ==> syms[i].index == NoIndex
    requires forall c :: Draws(s, c) ==> s.index == CountOf(syms, c) % U32_LIMIT
    requires s.location == Texture ==> s.index == NoIndex
    ensures forall c :: Dense(syms + [s], c)
    ensures forall c :: CountOf(syms + [s], c) == CountOf(syms, c) + (if Draws(s, c) then 1 else 0)
    ensures forall i :: 0 <= i < |syms + [s]| && (syms + [s])[i].location == Texture ==> (syms + [s])[i].index == NoIndex
  {
    forall c ensures Dense(syms + [s], c)
      ensures CountOf(syms + [s], c) == CountOf(syms, c) + (if Draws(s, c) then 1 else 0)
    {
      AppendKeepsDense(syms, s, c);
    }
    var t := syms + [s];
    forall i | 0 <= i < |t| && t[i].location == Texture
      ensures t[i].index == NoIndex
    {
      if i < |syms| {
        assert t[i] == syms[i];
      }
    }
  }

  /** The side tables of a program with one more symbol keep their keys below their counters. */
  lemma AppendKeepsKeysBelow(p: Program, s: Symbol, q: Program)
    requires KeysBelow(p.inputSemantics, CountOf(p.symbols, InputCounter))
    requires KeysBelow(p.outputSemantics, CountOf(p.symbols, OutputCounter))
    requires KeysBelow(p.variableNames, CountOf(p.symbols, VariableCounter))
    requires KeysBelow(p.uniformNames, CountOf(p.symbols, TempCounter))
    requires KeysBelow(p.temporaryValues, CountOf(p.symbols, TempCounter))
    requires KeysBelow(p.temporaryValuesInt, CountOf(p.symbols, TempCounter))
    requires KeysBelow(p.temporaryValuesBool, CountOf(p.symbols, TempCounter))
    requires forall c :: Draws(s, c) ==> s.index == CountOf(p.symbols, c) % U32_LIMIT
    requires forall c :: CountOf(q.symbols, c) == CountOf(p.symbols, c) + (if Draws(s, c) then 1 else 0)
    requires TablesGrow(p, s, q)
    ensures KeysBelow(q.inputSemantics, CountOf(q.symbols, InputCounter))
    ensures KeysBelow(q.outputSemantics, CountOf(q.symbols, OutputCounter))
    ensures KeysBelow(q.variableNames, CountOf(q.symbols, VariableCounter))
    ensures KeysBelow(q.uniformNames, CountOf(q.symbols, TempCounter))
    ensures KeysBelow(q.temporaryValues, CountOf(q.symbols, TempCounter))
    ensures KeysBelow(q.temporaryValuesInt, CountOf(q.symbols, TempCounter))
    ensures KeysBelow(q.temporaryValuesBool, CountOf(q.symbols, TempCounter))
  {
    var tmp := Draws(s, TempCounter);
    KeysBelowGrow(p.inputSemantics, q.inputSemantics, CountOf(p.symbols, InputCounter), CountOf(q.symbols, InputCounter), s.index,
      s.location == Input, Draws(s, InputCounter));
    KeysBelowGrow(p.outputSemantics, q.outputSemantics, CountOf(p.symbols, OutputCounter), CountOf(q.symbols, OutputCounter), s.index,
      s.location == Output, Draws(s, OutputCounter));
    KeysBelowGrow(p.variableNames, q.variableNames, CountOf(p.symbols, VariableCounter), CountOf(q.symbols, VariableCounter), s.index,
      s.location == Variable, Draws(s, VariableCounter));
    KeysBelowGrow(p.uniformNames, q.uniformNames, CountOf(p.symbols, TempCounter), CountOf(q.symbols, TempCounter), s.index,
      s.location == Uniform, tmp);
    KeysBelowGrow(p.temporaryValues, q.temporaryValues, CountOf(p.symbols, TempCounter), CountOf(q.symbols, TempCounter), s.index,
      s.location == Temporary, tmp);
    KeysBelowGrow(p.temporaryValuesInt, q.temporaryValuesInt, CountOf(p.symbols, TempCounter), CountOf(q.symbols, TempCounter), s.index,
      s.location == Temporary, tmp);
    KeysBelowGrow(p.temporaryValuesBool, q.temporaryValuesBool, CountOf(p.symbols, TempCounter), CountOf(q.symbols, TempCounter), s.index,
      s.location == Temporary, tmp);
  }

  /** Appending one symbol whose index comes from its counter (or is the texture index) and
    * recording its index in the side tables of its location keeps a program well formed. */
  lemma AppendKeepsWellFormed(p: Program, s: Symbol, q: Program)
    requires WellFormed(p)
    requires q.symbols == p.symbols + [s]
    requires forall c :: Draws(s, c) ==> s.index == CountOf(p.symbols, c) % U32_LIMIT
    requires s.location == Texture ==> s.index == NoIndex
    requires TablesGrow(p, s, q)
    ensures WellFormed(q)
    ensures forall c :: CountOf(q.symbols, c) == CountOf(p.symbols, c) + (if Draws(s, c) then 1 else 0)
  {
    AppendKeepsCounters(p.symbols, s);
    RecordedGrow(p.symbols, s, Input, p.inputSemantics, q.inputSemantics);
    RecordedGrow(p.symbols, s, Output, p.outputSemantics, q.outputSemantics);
    RecordedGrow(p.symbols, s, Variable, p.variableNames, q.variableNames);
    RecordedGrow(p.symbols, s, Uniform, p.uniformNames, q.uniformNames);
    AppendKeepsKeysBelow(p, s, q);
  }

  /** A well-formed program together with the four counter values that the builder holds for
    * it: each is, modulo 2^32, the number of symbols drawn from it. */
  predicate Counted(p: Program, temp: u32, variable: u32, input: u32, output: u32)
  {
    && WellFormed(p)
    && temp == CountOf(p.symbols, TempCounter) % U32_LIMIT
    && variable == CountOf(p.symbols, VariableCounter) % U32_LIMIT
    && input == CountOf(p.symbols, InputCounter) % U32_LIMIT
    && output == CountOf(p.symbols, OutputCounter) % U32_LIMIT
  }

  /** The value after a post-increment of a 32-bit counter when `drawn`, else the same value. */
  function Bump(n: u32, drawn: bool): u32
  {
    if drawn then ToU32(n + 1) else n
  }

  lemma BumpCount(n: nat, drawn: bool)
    ensures Bump(n % U32_LIMIT, drawn) == (n + if drawn then 1 else 0) % U32_LIMIT
  {
  }

  /** One Create* step of the builder keeps its program well formed and its counters exact. */
  lemma AppendKeepsCounted(p: Program, s: Symbol, q: Program, t: u32, v: u32, i: u32, o: u32,
      t': u32, v': u32, i': u32, o': u32)
    requires t' == Bump(t, Draws(s, TempCounter)) && v' == Bump(v, Draws(s, VariableCounter))
    requires i' == Bump(i, Draws(s, InputCounter)) && o' == Bump(o, Draws(s, OutputCounter))
    requires q.symbols == p.symbols + [s]
    requires Draws(s, TempCounter) ==> s.index == t
    requires Draws(s, VariableCounter) ==> s.index == v
    requires Draws(s, InputCounter) ==> s.index == i
    requires Draws(s, OutputCounter) ==> s.index == o
    requires s.location == Texture ==> s.index == NoIndex
    requires TablesGrow(p, s, q)
    ensures Counted(p, t, v, i, o) ==> Counted(q, t', v', i', o')
  {
    if !Counted(p, t, v, i, o) {
      return;
    }
    forall c | Draws(s, c)
      ensures s.index == CountOf(p.symbols, c) % U32_LIMIT
    {
      match c
      case TempCounter =>
      case VariableCounter =>
      case InputCounter =>
      case OutputCounter =>
    }
    AppendKeepsWellFormed(p, s, q);
    assert WellFormed(q);
    BumpStep(p, q, s, TempCounter, t);
    BumpStep(p, q, s, VariableCounter, v);
    BumpStep(p, q, s, InputCounter, i);
    BumpStep(p, q, s, OutputCounter, o);
  }

  lemma BumpStep(p: Program, q: Program, s: Symbol, c: Counter, n: u32)
    requires n == CountOf(p.symbols, c) % U32_LIMIT
    requires CountOf(q.symbols, c) == CountOf(p.symbols, c) + (if Draws(s, c) then 1 else 0)
    ensures Bump(n, Draws(s, c)) == CountOf(q.symbols, c) % U32_LIMIT
  {
    BumpCount(CountOf(p.symbols, c), Draws(s, c));
  }
}

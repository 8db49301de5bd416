/** The HLSL text generator (src/generators/HlslShaderGenerator.cpp): the naming switches as
  * functions, the input and output structures, the constant buffer, the samplers and the body as
  * folds over the symbols or statements, and `Generate` as a method that appends them in the
  * order the source writes them. */
module Hlsl {
  import opened Wrappers
  import opened Swizzle
  import opened Ir
  import opened ShaderProgram
  import opened Text

  const MakeSymbolNameUnsupportedLocation: string := "MakeSymbolName: unsupported location"
  const MakeLocalSymbolNameUnsupportedLocation: string := "MakeLocalSymbolName: unsupported location"
  const MakeSemanticNameUnsupportedSemantic: string := "MakeSemanticName: unsupported semantic"
  const MakeTypeNameUnsupportedType: string := "MakeTypeName: unsupported type"
  const PrintSymbolRefUnsupportedSwizzle: string := "PrintSymbolRef: unsupported swizzle"
  const SampleSourceNotTexture2D: string := "Generate: SAMPLE source is not a Texture2D"
  const UnsupportedStatement: string := "Generate: unsupported statement"

  /** `FLAG_COMBINED_SAMPLER_TEXTURE`: sample with tex2D instead of `texture.Sample`. */
  predicate CombinedSamplerTexture(flags: u32)
  {
    flags % 2 == 1
  }

  const InputStructHeader: string := "struct INPUT\r\n{\r\n"
  const OutputStructHeader: string := "struct OUTPUT\r\n{\r\n"
  const ConstantsHeader: string := "cbuffer Constants\r\n{\r\n"
  const BlockFooter: string := "};\r\n"
  const FunctionFooter: string := "\treturn output;\r\n}\r\n"

  /** The header of the entry point, named `methodName`, and its output variable. */
  function FunctionHeader(methodName: string): string
  {
    "OUTPUT " + methodName + "(INPUT input)\r\n" + "{\r\n" + "\tOUTPUT output;\r\n"
  }

  // ----- names -----

  /** The swizzles that `PrintSymbolRef` has a case for. */
  predicate Printable(s: Swizzle)
  {
    s in {X, Y, Z, W, XY, XZ, ZZ, XYZ, XYZW}
  }

  /** The swizzle switch of `PrintSymbolRef`: the suffix names the lanes the swizzle reads. Any
    * other swizzle is a contract violation. */
  function SwizzleSuffix(s: Swizzle): (r: Result<string>)
    ensures r.Ok? <==> Printable(s)
    ensures r.Ok? ==> r.value == "." + Spelled(Lanes(s))
  {
    SwizzleSpellings();
    match s
    case X => Ok(".x")
    case Y => Ok(".y")
    case Z => Ok(".z")
    case W => Ok(".w")
    case XY => Ok(".xy")
    case XZ => Ok(".xz")
    case ZZ => Ok(".zz")
    case XYZ => Ok(".xyz")
    case XYZW => Ok(".xyzw")
    case _ => Err(PrintSymbolRefUnsupportedSwizzle)
  }

  /** `MakeSemanticName`: POSITION, TEXCOORD<i>, SV_POSITION and SV_TARGET; other semantics are
    * a contract violation. */
  function MakeSemanticName(semantic: SemanticInfo): (r: Result<string>)
    ensures r.Ok? <==> semantic.semantic in {Position, TexCoord, SystemPosition, SystemColor}
  {
    match semantic.semantic
    case Position => Ok("POSITION")
    case TexCoord => Ok("TEXCOORD" + UnsignedAsD(semantic.index))
    case SystemPosition => Ok("SV_POSITION")
    case SystemColor => Ok("SV_TARGET")
    case _ => Err(MakeSemanticNameUnsupportedSemantic)
  }

  /** Two semantics get the same name exactly when they have the same kind and, for texture
    * coordinates, the same index: the index of a POSITION semantic is not part of its name. */
  lemma SemanticNamesEqual(a: SemanticInfo, b: SemanticInfo)
    requires MakeSemanticName(a).Ok? && MakeSemanticName(b).Ok?
    ensures MakeSemanticName(a) == MakeSemanticName(b) <==>
      a.semantic == b.semantic && (a.semantic == TexCoord ==> a.index == b.index)
  {
    var na, nb := MakeSemanticName(a).value, MakeSemanticName(b).value;
    if a.semantic != b.semantic {
      if a.semantic in {SystemPosition, SystemColor} && b.semantic in {SystemPosition, SystemColor} {
        assert na[3] != nb[3];
      } else {
        assert na[0] != nb[0];
      }
    } else if a.semantic == TexCoord {
      SamePrefix("TEXCOORD", UnsignedAsD(a.index), UnsignedAsD(b.index));
      UnsignedAsDInjective(a.index, b.index);
    }
  }

  /** `MakeTypeName`: float4, matrix and Texture2D; other types are a contract violation. */
  function MakeTypeName(ty: SymbolType): (r: Result<string>)
    ensures r.Ok? <==> ty == Float4 || ty == Matrix || ty == Texture2D
  {
    match ty
    case Float4 => Ok("float4")
    case Matrix => Ok("matrix")
    case Texture2D => Ok("Texture2D")
    case _ => Err(MakeTypeNameUnsupportedType)
  }

  /** `MakeLocalSymbolName`: the member "i<index>" of the input structure, "o<index>" of the
    * output structure, or the recorded name of a uniform. Other locations are a contract
    * violation. */
  function MakeLocalSymbolName(p: Program, sym: Symbol): (r: Result<string>)
    ensures sym.location == Input ==> r == Ok("i" + UnsignedAsD(sym.index))
    ensures sym.location == Output ==> r == Ok("o" + UnsignedAsD(sym.index))
    ensures sym.location == Uniform ==> r == GetUniformName(p, sym)
    ensures sym.location !in {Input, Output, Uniform} ==> r.Err?
  {
    match sym.location
    case Input => Ok("i" + UnsignedAsD(sym.index))
    case Output => Ok("o" + UnsignedAsD(sym.index))
    case Uniform => GetUniformName(p, sym)
    case _ => Err(MakeLocalSymbolNameUnsupportedLocation)
  }

  /** `MakeSymbolName`: a temporary is "t<index>", an input or output is its member of the
    * `input` or `output` structure, a uniform is its name. Other locations are a contract
    * violation. */
  function MakeSymbolName(p: Program, sym: Symbol): (r: Result<string>)
    ensures sym.location == Temporary ==> r == Ok("t" + UnsignedAsD(sym.index))
    ensures sym.location == Input ==> r == Ok("input.i" + UnsignedAsD(sym.index))
    ensures sym.location == Output ==> r == Ok("output.o" + UnsignedAsD(sym.index))
    ensures sym.location == Uniform ==> r == GetUniformName(p, sym)
    ensures sym.location !in {Temporary, Input, Output, Uniform} ==> r.Err?
  {
    match sym.location
    case Temporary => Ok("t" + UnsignedAsD(sym.index))
    case Input =>
      assert "input." + ("i" + UnsignedAsD(sym.index)) == "input.i" + UnsignedAsD(sym.index);
      Ok("input." + MakeLocalSymbolName(p, sym).value)
    case Output =>
      assert "output." + ("o" + UnsignedAsD(sym.index)) == "output.o" + UnsignedAsD(sym.index);
      Ok("output." + MakeLocalSymbolName(p, sym).value)
    case Uniform => MakeLocalSymbolName(p, sym)
    case _ => Err(MakeSymbolNameUnsupportedLocation)
  }

  /** Temporaries, inputs and outputs never share a name: two of them print the same only when
    * they are the same kind of symbol with the same index. */
  lemma SymbolNamesDistinct(p: Program, a: Symbol, b: Symbol)
    requires a.location in {Temporary, Input, Output} && b.location in {Temporary, Input, Output}
    ensures MakeSymbolName(p, a) == MakeSymbolName(p, b) ==> a.location == b.location && a.index == b.index
  {
    var na, nb := MakeSymbolName(p, a).value, MakeSymbolName(p, b).value;
    if a.location != b.location {
      assert na[0] != nb[0];
    } else {
      var prefix := if a.location == Temporary then "t" else if a.location == Input then "input.i" else "output.o";
      SamePrefix(prefix, UnsignedAsD(a.index), UnsignedAsD(b.index));
      UnsignedAsDInjective(a.index, b.index);
    }
  }

  /** `PrintSymbolRef`: a matrix prints as its bare name; any other symbol as its name followed
    * by the letters of the lanes its swizzle reads. */
  function PrintSymbolRef(p: Program, ref: SymbolRef): (r: Result<string>)
    ensures r.Ok? <==> MakeSymbolName(p, ref.symbol).Ok? && (ref.symbol.ty == Matrix || Printable(ref.swizzle))
    ensures r.Ok? && ref.symbol.ty == Matrix ==> r.value == MakeSymbolName(p, ref.symbol).value
    ensures r.Ok? && ref.symbol.ty != Matrix ==>
      r.value == MakeSymbolName(p, ref.symbol).value + "." + Spelled(Lanes(ref.swizzle))
  {
    var name :- MakeSymbolName(p, ref.symbol);
    if ref.symbol.ty == Matrix then Ok(name)
    else
      var suffix :- SwizzleSuffix(ref.swizzle);
      Ok(name + suffix)
  }

  /** `PrintSymbolRef` as a function value, for the line helpers. */
  function Printer(p: Program): SymbolRef -> Result<string>
  {
    ref => PrintSymbolRef(p, ref)
  }

  // ----- declarations -----

  /** A member of the input or output structure: type, member name and semantic. */
  function Member(ty: string, name: string, semantic: string): string
  {
    "\t" + ty + " " + name + " : " + semantic + ";" + NewLine
  }

  /** The member of `GenerateInputStruct` for one symbol, nothing for a symbol that is not an
    * input. Every input is declared, system semantics included. */
  function InputMember(p: Program, sym: Symbol): (r: Result<string>)
    ensures sym.location != Input ==> r == Ok("")
    ensures sym.location == Input ==>
      (r.Ok? <==> GetInputSemantic(p, sym).Ok? && MakeTypeName(sym.ty).Ok?
                  && MakeSemanticName(GetInputSemantic(p, sym).value).Ok?)
    ensures r.Ok? && sym.location == Input ==>
      r.value == Member(MakeTypeName(sym.ty).value, "i" + UnsignedAsD(sym.index),
                        MakeSemanticName(p.inputSemantics[sym.index]).value)
  {
    if sym.location != Input then Ok("")
    else
      var semantic :- GetInputSemantic(p, sym);
      var ty :- MakeTypeName(sym.ty);
      var semanticName :- MakeSemanticName(semantic);
      Ok(Member(ty, MakeLocalSymbolName(p, sym).value, semanticName))
  }

  /** The member of `GenerateOutputStruct` for one symbol, nothing for a symbol that is not an
    * output. */
  function OutputMember(p: Program, sym: Symbol): (r: Result<string>)
    ensures sym.location != Output ==> r == Ok("")
    ensures sym.location == Output ==>
      (r.Ok? <==> GetOutputSemantic(p, sym).Ok? && MakeTypeName(sym.ty).Ok?
                  && MakeSemanticName(GetOutputSemantic(p, sym).value).Ok?)
    ensures r.Ok? && sym.location == Output ==>
      r.value == Member(MakeTypeName(sym.ty).value, "o" + UnsignedAsD(sym.index),
                        MakeSemanticName(p.outputSemantics[sym.index]).value)
  {
    if sym.location != Output then Ok("")
    else
      var semantic :- GetOutputSemantic(p, sym);
      var ty :- MakeTypeName(sym.ty);
      var semanticName :- MakeSemanticName(semantic);
      Ok(Member(ty, MakeLocalSymbolName(p, sym).value, semanticName))
  }

  /** The entry of `GenerateConstants` for one symbol: a matrix or a float4 per uniform. */
  function ConstantMember(p: Program, sym: Symbol): (r: Result<string>)
    ensures sym.location != Uniform ==> r == Ok("")
    ensures sym.location == Uniform ==> (r.Ok? <==> GetUniformName(p, sym).Ok?)
    ensures r.Ok? && sym.location == Uniform ==>
      r.value == "\t" + (if sym.ty == Matrix then "matrix" else "float4") + " " + p.uniformNames[sym.index] + ";" + NewLine
  {
    if sym.location != Uniform then Ok("")
    else
      var name :- MakeLocalSymbolName(p, sym);
      Ok("\t" + (if sym.ty == Matrix then "matrix" else "float4") + " " + name + ";" + NewLine)
  }

  /** The texture of unit `n`, bound to register t<n>. */
  function TextureName(n: u32): string
  {
    "c_texture" + UnsignedAsD(n)
  }

  /** The sampler of unit `n`, bound to register s<n>. */
  function SamplerName(n: u32): string
  {
    "c_sampler" + UnsignedAsD(n)
  }

  /** Textures bound to different units get different textures and samplers. */
  lemma ResourceNamesDistinct(a: u32, b: u32)
    ensures TextureName(a) == TextureName(b) ==> a == b
    ensures SamplerName(a) == SamplerName(b) ==> a == b
  {
    SamePrefix("c_texture", UnsignedAsD(a), UnsignedAsD(b));
    SamePrefix("c_sampler", UnsignedAsD(a), UnsignedAsD(b));
    UnsignedAsDInjective(a, b);
  }

  /** The declarations of `GenerateSamplers` for one symbol: a texture and a sampler state per
    * texture symbol, both numbered and registered by the texture's unit. */
  function SamplerDeclaration(sym: Symbol): (r: Result<string>)
    ensures sym.location != Texture ==> r == Ok("")
    ensures sym.location == Texture ==> (r.Ok? <==> MakeTypeName(sym.ty).Ok?)
    ensures r.Ok? && sym.location == Texture ==>
      r.value == MakeTypeName(sym.ty).value + " " + TextureName(sym.unit) + " : register(t" + UnsignedAsD(sym.unit) + ");" + NewLine
        + "SamplerState " + SamplerName(sym.unit) + " : register(s" + UnsignedAsD(sym.unit) + ");" + NewLine
  {
    if sym.location != Texture then Ok("")
    else
      var ty :- MakeTypeName(sym.ty);
      Ok(ty + " " + TextureName(sym.unit) + " : register(t" + UnsignedAsD(sym.unit) + ");" + NewLine
        + "SamplerState " + SamplerName(sym.unit) + " : register(s" + UnsignedAsD(sym.unit) + ");" + NewLine)
  }

  /** A `float4` temporary initialised with the four lanes of `v`. */
  function TemporaryText(name: string, v: Vec4<Float>, format: Float -> string): string
  {
    "\tfloat4 " + name + " = float4(" + format(v.x) + ", " + format(v.y) + ", " + format(v.z) + ", " + format(v.w) + ");" + NewLine
  }

  /** The declaration of one temporary at the top of the entry point, with its recorded value
    * (zero when none was recorded). `format` stands for the `%f` conversion of a float. */
  function TemporaryDeclaration(p: Program, format: Float -> string, sym: Symbol): (r: Result<string>)
    ensures sym.location != Temporary ==> r == Ok("")
    ensures sym.location == Temporary ==> (r.Ok? <==> sym.ty == Float4)
    ensures r.Ok? && sym.location == Temporary ==>
      GetTemporaryValue(p, sym).Ok?
      && r.value == TemporaryText("t" + UnsignedAsD(sym.index), GetTemporaryValue(p, sym).value, format)
  {
    if sym.location != Temporary then Ok("")
    else
      var v :- GetTemporaryValue(p, sym);
      Ok(TemporaryText(MakeSymbolName(p, sym).value, v, format))
  }

  function InputMembers(p: Program): Symbol -> Result<string>
  {
    sym => InputMember(p, sym)
  }

  function OutputMembers(p: Program): Symbol -> Result<string>
  {
    sym => OutputMember(p, sym)
  }

  function ConstantMembers(p: Program): Symbol -> Result<string>
  {
    sym => ConstantMember(p, sym)
  }

  function SamplerDeclarations(): Symbol -> Result<string>
  {
    sym => SamplerDeclaration(sym)
  }

  function TemporaryDeclarations(p: Program, format: Float -> string): Symbol -> Result<string>
  {
    sym => TemporaryDeclaration(p, format, sym)
  }

  // ----- statements -----

  /** The operations the statement switch of `Generate` has a case for. */
  predicate Emits(op: Op)
  {
    op in {Add, Subtract, Multiply, Divide, Max, Dot, Pow, Mix, NewVector2, NewVector4,
           Assign, Negate, Saturate, Clamp, Normalize, Length, Sample}
  }

  /** The sampling expression for the texture in `src1`: tex2D on the combined sampler, or the
    * `Sample` method of the texture with its separate sampler, both numbered by the texture's
    * unit. Only the combined form checks that the source is a Texture2D. */
  function SampleLine(p: Program, flags: u32, s: Statement): (r: Result<string>)
    ensures CombinedSamplerTexture(flags) && s.src1.symbol.ty != Texture2D ==> r.Err?
    ensures r.Ok? <==> PrintSymbolRef(p, s.dst).Ok? && PrintSymbolRef(p, s.src2).Ok?
                       && (CombinedSamplerTexture(flags) ==> s.src1.symbol.ty == Texture2D)
    ensures r.Ok? && CombinedSamplerTexture(flags) ==>
      r.value == Line(PrintSymbolRef(p, s.dst).value,
                      "tex2D(" + SamplerName(s.src1.symbol.unit) + ", " + PrintSymbolRef(p, s.src2).value + ")")
    ensures r.Ok? && !CombinedSamplerTexture(flags) ==>
      r.value == Line(PrintSymbolRef(p, s.dst).value,
                      TextureName(s.src1.symbol.unit) + ".Sample(" + SamplerName(s.src1.symbol.unit) + ", "
                      + PrintSymbolRef(p, s.src2).value + ")")
    ensures r.Ok? ==> IsLineFor(PrintSymbolRef(p, s.dst).value, r.value)
  {
    if CombinedSamplerTexture(flags) && s.src1.symbol.ty != Texture2D then Err(SampleSourceNotTexture2D)
    else
      var dst :- PrintSymbolRef(p, s.dst);
      var coordinates :- PrintSymbolRef(p, s.src2);
      var rhs :=
        if CombinedSamplerTexture(flags) then "tex2D(" + SamplerName(s.src1.symbol.unit) + ", " + coordinates + ")"
        else TextureName(s.src1.symbol.unit) + ".Sample(" + SamplerName(s.src1.symbol.unit) + ", " + coordinates + ")";
      LineIsLine(dst, rhs);
      Ok(Line(dst, rhs))
  }

  /** A multiplication involving a matrix is `mul(a, b)`; any other is `a * b`. */
  function MultiplyLine(p: Program, s: Statement): (r: Result<string>)
    ensures r.Ok? <==> PrintSymbolRef(p, s.dst).Ok? && PrintSymbolRef(p, s.src1).Ok? && PrintSymbolRef(p, s.src2).Ok?
    ensures r.Ok? && (s.src1.symbol.ty == Matrix || s.src2.symbol.ty == Matrix) ==>
      r.value == Line(PrintSymbolRef(p, s.dst).value,
                      "mul(" + PrintSymbolRef(p, s.src1).value + ", " + PrintSymbolRef(p, s.src2).value + ")")
    ensures r.Ok? && s.src1.symbol.ty != Matrix && s.src2.symbol.ty != Matrix ==>
      r.value == Line(PrintSymbolRef(p, s.dst).value,
                      PrintSymbolRef(p, s.src1).value + " * " + PrintSymbolRef(p, s.src2).value)
    ensures r.Ok? ==> IsLineFor(PrintSymbolRef(p, s.dst).value, r.value)
  {
    var dst :- PrintSymbolRef(p, s.dst);
    var a :- PrintSymbolRef(p, s.src1);
    var b :- PrintSymbolRef(p, s.src2);
    var rhs := if s.src1.symbol.ty == Matrix || s.src2.symbol.ty == Matrix then "mul(" + a + ", " + b + ")" else a + " * " + b;
    LineIsLine(dst, rhs);
    Ok(Line(dst, rhs))
  }

  /** NEWVECTOR4: `float4(...)` over exactly the sources in use when there are two, three or
    * four of them; nothing otherwise. */
  function NewVector4Line(p: Program, s: Statement): (r: Result<string>)
    ensures SourceCount(s).Err? ==> r.Err?
    ensures r.Ok? && r.value != "" ==>
      2 <= SourceCount(s).value <= 4 && r == CallLine(Printer(p), s, "float4", SourceCount(s).value)
    ensures r.Ok? && r.value == "" ==> SourceCount(s).value < 2
    ensures r.Ok? && r.value != "" ==> PrintSymbolRef(p, s.dst).Ok? && IsLineFor(PrintSymbolRef(p, s.dst).value, r.value)
  {
    var n :- SourceCount(s);
    if 2 <= n <= 4 then CallLine(Printer(p), s, "float4", n) else Ok("")
  }

  /** The statement switch of `Generate`: one assignment line to the destination, or nothing for
    * a NEWVECTOR4 with fewer than two sources; an operation without a case is a contract
    * violation. */
  function StatementLine(p: Program, flags: u32, s: Statement): (r: Result<string>)
    ensures !Emits(s.op) ==> r.Err?
    ensures s.op == Multiply ==> r == MultiplyLine(p, s)
    ensures s.op == NewVector4 ==> r == NewVector4Line(p, s)
    ensures s.op == Sample ==> r == SampleLine(p, flags, s)
    ensures r.Ok? && r.value != "" ==>
      PrintSymbolRef(p, s.dst).Ok? && IsLineFor(PrintSymbolRef(p, s.dst).value, r.value)
    ensures r.Ok? && r.value == "" ==> s.op == NewVector4 && SourceCount(s).Ok? && SourceCount(s).value < 2
  {
    match s.op
    case Add => InfixLine(Printer(p), s, "+")
    case Subtract => InfixLine(Printer(p), s, "-")
    case Multiply => MultiplyLine(p, s)
    case Divide => InfixLine(Printer(p), s, "/")
    case Max => CallLine(Printer(p), s, "max", 2)
    case Dot => CallLine(Printer(p), s, "dot", 2)
    case Pow => CallLine(Printer(p), s, "pow", 2)
    case Mix => CallLine(Printer(p), s, "lerp", 3)
    case NewVector2 => CallLine(Printer(p), s, "float2", 2)
    case NewVector4 => NewVector4Line(p, s)
    case Assign => UnaryLine(Printer(p), s, "", "")
    case Negate => UnaryLine(Printer(p), s, "-", "")
    case Saturate => UnaryLine(Printer(p), s, "saturate(", ")")
    case Clamp => CallLine(Printer(p), s, "clamp", 3)
    case Normalize => UnaryLine(Printer(p), s, "normalize(", ")")
    case Length => UnaryLine(Printer(p), s, "length(", ")")
    case Sample => SampleLine(p, flags, s)
    case _ => Err(UnsupportedStatement)
  }

  function StatementLines(p: Program, flags: u32): Statement -> Result<string>
  {
    s => StatementLine(p, flags, s)
  }

  // ----- the whole text -----

  /** `GenerateInputStruct`: the INPUT structure with one member per input. */
  function InputStruct(p: Program): Result<string>
  {
    var members :- Gather(p.symbols, InputMembers(p));
    Ok(InputStructHeader + members + BlockFooter)
  }

  /** `GenerateOutputStruct`: the OUTPUT structure with one member per output. */
  function OutputStruct(p: Program): Result<string>
  {
    var members :- Gather(p.symbols, OutputMembers(p));
    Ok(OutputStructHeader + members + BlockFooter)
  }

  /** `GenerateConstants`: the constant buffer with one entry per uniform. */
  function Constants(p: Program): Result<string>
  {
    var members :- Gather(p.symbols, ConstantMembers(p));
    Ok(ConstantsHeader + members + BlockFooter)
  }

  /** Everything before the first statement line: the structures, the constant buffer, the
    * samplers, the entry point's header and the temporaries. */
  function Prologue(p: Program, methodName: string, format: Float -> string): Result<string>
  {
    var inputs :- InputStruct(p);
    var outputs :- OutputStruct(p);
    var constants :- Constants(p);
    var samplers :- Gather(p.symbols, SamplerDeclarations());
    var temporaries :- Gather(p.symbols, TemporaryDeclarations(p, format));
    Ok(inputs + outputs + constants + samplers + FunctionHeader(methodName) + temporaries)
  }

  /** The text `Generate` returns: the prologue, one line per statement and the return. */
  function HlslText(p: Program, methodName: string, flags: u32, format: Float -> string): Result<string>
  {
    var prologue :- Prologue(p, methodName, format);
    var body :- Gather(p.statements, StatementLines(p, flags));
    Ok(prologue + body + FunctionFooter)
  }

  /** The loop of `GenerateInputStruct`, `GenerateOutputStruct` or `GenerateConstants` between
    * the block's header and footer. */
  method GenerateBlock(header: string, items: seq<Symbol>, f: Symbol -> Result<string>) returns (r: Result<string>)
    ensures Gather(items, f).Err? ==> r == Gather(items, f)
    ensures Gather(items, f).Ok? ==> r == Ok(header + Gather(items, f).value + BlockFooter)
  {
    var members := Concatenate(items, f);
    if members.Err? {
      return Err(members.error);
    }
    r := Ok(header + members.value + BlockFooter);
  }

  /** `CHlslShaderGenerator::Generate`: appends the structures, the constants, the samplers and
    * the entry point with its temporaries and the line of each statement, in the order of the
    * source. */
  method Generate(p: Program, methodName: string, flags: u32, format: Float -> string) returns (r: Result<string>)
    ensures r == HlslText(p, methodName, flags, format)
  {
    var inputs := GenerateBlock(InputStructHeader, p.symbols, InputMembers(p));
    if inputs.Err? {
      return Err(inputs.error);
    }
    var outputs := GenerateBlock(OutputStructHeader, p.symbols, OutputMembers(p));
    if outputs.Err? {
      return Err(outputs.error);
    }
    var constants := GenerateBlock(ConstantsHeader, p.symbols, ConstantMembers(p));
    if constants.Err? {
      return Err(constants.error);
    }
    var samplers := Concatenate(p.symbols, SamplerDeclarations());
    if samplers.Err? {
      return Err(samplers.error);
    }
    var result := inputs.value + outputs.value + constants.value + samplers.value;
    result := result + FunctionHeader(methodName);
    var temporaries := Concatenate(p.symbols, TemporaryDeclarations(p, format));
    if temporaries.Err? {
      return Err(temporaries.error);
    }
    result := result + temporaries.value;
    assert Prologue(p, methodName, format) == Ok(result);
    var body := Concatenate(p.statements, StatementLines(p, flags));
    if body.Err? {
      return Err(body.error);
    }
    result := result + body.value;
    result := result + FunctionFooter;
    r := Ok(result);
  }

  // ----- properties of the whole text -----

  /** The text starts with the INPUT structure. */
  lemma StartsWithInputStruct(p: Program, methodName: string, flags: u32, format: Float -> string)
    requires HlslText(p, methodName, flags, format).Ok?
    ensures InputStructHeader <= HlslText(p, methodName, flags, format).value
  {
    var inputs := InputStruct(p).value;
    var rest := HlslText(p, methodName, flags, format).value[|inputs|..];
    var members := Gather(p.symbols, InputMembers(p)).value;
    assert inputs == InputStructHeader + (members + BlockFooter);
    PrefixAppend(InputStructHeader, InputStructHeader, members + BlockFooter);
    var prologue := Prologue(p, methodName, format).value;
    var body := Gather(p.statements, StatementLines(p, flags)).value;
    var outputs, constants := OutputStruct(p).value, Constants(p).value;
    var samplers := Gather(p.symbols, SamplerDeclarations()).value;
    var temporaries := Gather(p.symbols, TemporaryDeclarations(p, format)).value;
    PrefixAppend(InputStructHeader, inputs, outputs);
    PrefixAppend(InputStructHeader, inputs + outputs, constants);
    PrefixAppend(InputStructHeader, inputs + outputs + constants, samplers);
    PrefixAppend(InputStructHeader, inputs + outputs + constants + samplers, FunctionHeader(methodName));
    PrefixAppend(InputStructHeader, inputs + outputs + constants + samplers + FunctionHeader(methodName), temporaries);
    PrefixAppend(InputStructHeader, prologue, body);
    PrefixAppend(InputStructHeader, prologue + body, FunctionFooter);
  }

  /** The structures, the constant buffer and the samplers come first, in that order, followed
    * by the entry point's header. */
  lemma SectionsInOrder(p: Program, methodName: string, flags: u32, format: Float -> string)
    requires HlslText(p, methodName, flags, format).Ok?
    ensures InputStruct(p).Ok? && OutputStruct(p).Ok? && Constants(p).Ok?
    ensures Gather(p.symbols, SamplerDeclarations()).Ok?
    ensures InputStruct(p).value + OutputStruct(p).value + Constants(p).value
      + Gather(p.symbols, SamplerDeclarations()).value + FunctionHeader(methodName)
      <= HlslText(p, methodName, flags, format).value
  {
    var prologue := Prologue(p, methodName, format).value;
    var head := InputStruct(p).value + OutputStruct(p).value + Constants(p).value
      + Gather(p.symbols, SamplerDeclarations()).value + FunctionHeader(methodName);
    var temporaries := Gather(p.symbols, TemporaryDeclarations(p, format)).value;
    var body := Gather(p.statements, StatementLines(p, flags)).value;
    PrefixAppend(head, head, temporaries);
    PrefixAppend(head, prologue, body);
    PrefixAppend(head, prologue + body, FunctionFooter);
  }

  /** The text ends with the return of the output structure and the closing brace. */
  lemma EndsWithReturn(p: Program, methodName: string, flags: u32, format: Float -> string)
    requires HlslText(p, methodName, flags, format).Ok?
    ensures |HlslText(p, methodName, flags, format).value| >= |FunctionFooter|
    ensures HlslText(p, methodName, flags, format).value[|HlslText(p, methodName, flags, format).value| - |FunctionFooter|..]
      == FunctionFooter
  {
    var prologue := Prologue(p, methodName, format).value;
    var body := Gather(p.statements, StatementLines(p, flags)).value;
    var t := prologue + body + FunctionFooter;
    assert t[|t| - |FunctionFooter|..] == FunctionFooter;
  }

  /** Statement `k`'s line sits in the text after the prologue and the lines of the statements
    * before it, and before the lines of the statements after it and the return. */
  lemma StatementsInOrder(p: Program, methodName: string, flags: u32, format: Float -> string, k: nat)
    requires HlslText(p, methodName, flags, format).Ok? && k < |p.statements|
    ensures Prologue(p, methodName, format).Ok? && StatementLine(p, flags, p.statements[k]).Ok?
    ensures Gather(p.statements[..k], StatementLines(p, flags)).Ok?
    ensures Gather(p.statements[k + 1..], StatementLines(p, flags)).Ok?
    ensures HlslText(p, methodName, flags, format).value
      == Prologue(p, methodName, format).value + Gather(p.statements[..k], StatementLines(p, flags)).value
         + StatementLine(p, flags, p.statements[k]).value
         + Gather(p.statements[k + 1..], StatementLines(p, flags)).value + FunctionFooter
  {
    var f := StatementLines(p, flags);
    GatherAt(p.statements, f, k);
    var prologue := Prologue(p, methodName, format).value;
    var before, line, after := Gather(p.statements[..k], f).value, f(p.statements[k]).value, Gather(p.statements[k + 1..], f).value;
    Regrouped(prologue, before + line, after);
    Regrouped(prologue, before, line);
  }
}

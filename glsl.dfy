/** The GLSL text generator (src/generators/GlslShaderGenerator.cpp): the naming switches as
  * functions, each text section as a fold over the symbols or statements, and `Generate` as a
  * method whose loops append the sections in the order the source writes them. */
module Glsl {
  import opened Wrappers
  import opened Swizzle
  import opened Ir
  import opened ShaderProgram
  import opened Text

  const MakeSymbolNameUnsupportedLocation: string := "MakeSymbolName: unsupported location"
  const MakeLocalSymbolNameUnsupportedLocation: string := "MakeLocalSymbolName: unsupported location"
  const MakeSemanticNameUnsupportedSemantic: string := "MakeSemanticName: unsupported semantic"
  const MakeTypeNameUnsupportedType: string := "MakeTypeName: unsupported type"
  const PrintSymbolRefUnsupportedSwizzle: string := "PrintSymbolRef: unsupported swizzle"
  const SampleSourceNotTexture: string := "Generate: SAMPLE source is not a texture"
  const UnsupportedStatement: string := "Generate: unsupported statement"

  /** `CGlslShaderGenerator::SHADER_TYPE`. */
  datatype Stage = Vertex | Fragment

  const Precision: string := "precision mediump float;\r\n"
  const MainHeader: string := "void main()\r\n{\r\n"
  const MainFooter: string := "}\r\n"

  // ----- names -----

  /** The swizzles that `PrintSymbolRef` has a case for. */
  predicate Printable(s: Swizzle)
  {
    s == X || s == Y || s == W || s == XY || s == XZ || s == XYZ || s == XYZW
  }

  /** The swizzle switch of `PrintSymbolRef`: the suffix names the lanes the swizzle reads. Any
    * other swizzle, Z among them, is a contract violation. */
  function SwizzleSuffix(s: Swizzle): (r: Result<string>)
    ensures r.Ok? <==> Printable(s)
    ensures r.Ok? ==> r.value == "." + Spelled(Lanes(s))
  {
    SwizzleSpellings();
    match s
    case X => Ok(".x")
    case Y => Ok(".y")
    case W => Ok(".w")
    case XY => Ok(".xy")
    case XZ => Ok(".xz")
    case XYZ => Ok(".xyz")
    case XYZW => Ok(".xyzw")
    case _ => Err(PrintSymbolRefUnsupportedSwizzle)
  }

  /** `MakeSemanticName`: "position<i>" and "texCoord<i>"; other semantics are a contract
    * violation. */
  function MakeSemanticName(semantic: SemanticInfo): (r: Result<string>)
    ensures r.Ok? <==> semantic.semantic == Position || semantic.semantic == TexCoord
  {
    match semantic.semantic
    case Position => Ok("position" + UnsignedAsD(semantic.index))
    case TexCoord => Ok("texCoord" + UnsignedAsD(semantic.index))
    case _ => Err(MakeSemanticNameUnsupportedSemantic)
  }

  /** Different semantics get different names. */
  lemma SemanticNamesDistinct(a: SemanticInfo, b: SemanticInfo)
    requires MakeSemanticName(a).Ok? && MakeSemanticName(b).Ok?
    ensures MakeSemanticName(a) == MakeSemanticName(b) ==> a == b
  {
    if a.semantic != b.semantic {
      assert MakeSemanticName(a).value[0] != MakeSemanticName(b).value[0];
    } else if a.semantic == Position {
      SamePrefix("position", UnsignedAsD(a.index), UnsignedAsD(b.index));
      UnsignedAsDInjective(a.index, b.index);
    } else {
      SamePrefix("texCoord", UnsignedAsD(a.index), UnsignedAsD(b.index));
      UnsignedAsDInjective(a.index, b.index);
    }
  }

  /** `MakeTypeName`: vec4, mat4 and Texture2D; other types are a contract violation. */
  function MakeTypeName(ty: SymbolType): (r: Result<string>)
    ensures r.Ok? <==> ty == Float4 || ty == Matrix || ty == Texture2D
  {
    match ty
    case Float4 => Ok("vec4")
    case Matrix => Ok("mat4")
    case Texture2D => Ok("Texture2D")
    case _ => Err(MakeTypeNameUnsupportedType)
  }

  /** The prefix of an input's name: attributes of a vertex shader, varyings of a fragment one. */
  function InputPrefix(stage: Stage): string
  {
    if stage == Vertex then "a_" else "v_"
  }

  /** The prefix of a non-system output's name; outputs of a fragment shader have no varying. */
  function OutputPrefix(stage: Stage): string
  {
    if stage == Vertex then "v_" else "invalid_"
  }

  /** `MakeLocalSymbolName`: an input is its prefix and semantic name; the system position and
    * color outputs are the GLSL built-ins; another output is its prefix and semantic name; a
    * uniform is its recorded name. Other locations are a contract violation. */
  function MakeLocalSymbolName(p: Program, stage: Stage, sym: Symbol): (r: Result<string>)
    ensures r.Ok? ==> sym.location == Input || sym.location == Output || sym.location == Uniform
    ensures sym.location == Input ==>
      (r.Ok? <==> GetInputSemantic(p, sym).Ok? && MakeSemanticName(GetInputSemantic(p, sym).value).Ok?)
    ensures r.Ok? && sym.location == Input ==>
      r.value == InputPrefix(stage) + MakeSemanticName(p.inputSemantics[sym.index]).value
    ensures sym.location == Output ==> (r.Ok? ==> GetOutputSemantic(p, sym).Ok?)
    ensures r.Ok? && sym.location == Output && p.outputSemantics[sym.index].semantic == SystemPosition ==>
      r.value == "gl_Position"
    ensures r.Ok? && sym.location == Output && p.outputSemantics[sym.index].semantic == SystemColor ==>
      r.value == "gl_FragColor"
    ensures r.Ok? && sym.location == Output && p.outputSemantics[sym.index].semantic !in {SystemPosition, SystemColor} ==>
      MakeSemanticName(p.outputSemantics[sym.index]).Ok?
      && r.value == OutputPrefix(stage) + MakeSemanticName(p.outputSemantics[sym.index]).value
    ensures sym.location == Uniform ==> r == GetUniformName(p, sym)
  {
    if sym.location == Input then
      var semantic :- GetInputSemantic(p, sym);
      var name :- MakeSemanticName(semantic);
      Ok(InputPrefix(stage) + name)
    else if sym.location == Output then
      var semantic :- GetOutputSemantic(p, sym);
      if semantic.semantic == SystemPosition then Ok("gl_Position")
      else if semantic.semantic == SystemColor then Ok("gl_FragColor")
      else
        var name :- MakeSemanticName(semantic);
        Ok(OutputPrefix(stage) + name)
    else if sym.location == Uniform then
      GetUniformName(p, sym)
    else
      Err(MakeLocalSymbolNameUnsupportedLocation)
  }

  /** Two inputs whose recorded semantics differ get different names. */
  lemma InputNamesDistinct(p: Program, stage: Stage, a: Symbol, b: Symbol)
    requires MakeLocalSymbolName(p, stage, a).Ok? && MakeLocalSymbolName(p, stage, b).Ok?
    requires a.location == Input && b.location == Input
    ensures MakeLocalSymbolName(p, stage, a) == MakeLocalSymbolName(p, stage, b) ==>
      p.inputSemantics[a.index] == p.inputSemantics[b.index]
  {
    var sa, sb := p.inputSemantics[a.index], p.inputSemantics[b.index];
    SamePrefix(InputPrefix(stage), MakeSemanticName(sa).value, MakeSemanticName(sb).value);
    SemanticNamesDistinct(sa, sb);
  }

  /** `MakeSymbolName`: "t<index>" for a temporary, the local name for an input, an output or a
    * uniform; other locations are a contract violation. */
  function MakeSymbolName(p: Program, stage: Stage, sym: Symbol): (r: Result<string>)
    ensures r.Ok? ==> sym.location in {Temporary, Input, Output, Uniform}
    ensures sym.location == Temporary ==> r.Ok? && r.value == "t" + UnsignedAsD(sym.index)
    ensures sym.location in {Input, Output, Uniform} ==> r == MakeLocalSymbolName(p, stage, sym)
  {
    match sym.location
    case Temporary => Ok("t" + UnsignedAsD(sym.index))
    case Input => MakeLocalSymbolName(p, stage, sym)
    case Output => MakeLocalSymbolName(p, stage, sym)
    case Uniform => MakeLocalSymbolName(p, stage, sym)
    case _ => Err(MakeSymbolNameUnsupportedLocation)
  }

  /** Temporaries with different indices get different names. */
  lemma TemporaryNamesDistinct(p: Program, stage: Stage, a: Symbol, b: Symbol)
    requires a.location == Temporary && b.location == Temporary
    ensures MakeSymbolName(p, stage, a) == MakeSymbolName(p, stage, b) ==> a.index == b.index
  {
    SamePrefix("t", UnsignedAsD(a.index), UnsignedAsD(b.index));
    UnsignedAsDInjective(a.index, b.index);
  }

  /** `PrintSymbolRef`: a matrix prints as its bare name; any other symbol as its name followed
    * by the letters of the lanes its swizzle reads. */
  function PrintSymbolRef(p: Program, stage: Stage, ref: SymbolRef): (r: Result<string>)
    ensures r.Ok? <==> MakeSymbolName(p, stage, ref.symbol).Ok? && (ref.symbol.ty == Matrix || Printable(ref.swizzle))
    ensures r.Ok? && ref.symbol.ty == Matrix ==> r.value == MakeSymbolName(p, stage, ref.symbol).value
    ensures r.Ok? && ref.symbol.ty != Matrix ==>
      r.value == MakeSymbolName(p, stage, ref.symbol).value + "." + Spelled(Lanes(ref.swizzle))
  {
    var name :- MakeSymbolName(p, stage, ref.symbol);
    if ref.symbol.ty == Matrix then Ok(name)
    else
      var suffix :- SwizzleSuffix(ref.swizzle);
      Ok(name + suffix)
  }

  // ----- samplers -----

  /** The sampler of a texture symbol, numbered by its unit. */
  function SamplerName(n: u32): string
  {
    "c_sampler" + UnsignedAsD(n)
  }

  /** The number the generator gives a texture's sampler: the texture's unit. */
  function SamplerNumber(texture: Symbol): (n: u32)
    ensures n == texture.unit
  {
    texture.unit
  }

  /** Textures bound to different units get different samplers. */
  lemma SamplerNamesDistinct(a: Symbol, b: Symbol)
    ensures SamplerName(SamplerNumber(a)) == SamplerName(SamplerNumber(b)) ==> a.unit == b.unit
  {
    SamePrefix("c_sampler", UnsignedAsD(a.unit), UnsignedAsD(b.unit));
    UnsignedAsDInjective(a.unit, b.unit);
  }

  /** The sampler number as the source computes it, from the texture's index. */
  function SamplerNumberAsWritten(texture: Symbol): u32
  {
    texture.index
  }

  /** The builder gives every texture the index -1, so as written every texture of a well-formed
    * program declares and samples the same sampler, "c_sampler-1", which is not a GLSL name. */
  lemma SamplersShareNameAsWritten(p: Program, i: nat, j: nat)
    requires WellFormed(p)
    requires i < |p.symbols| && j < |p.symbols|
    requires p.symbols[i].location == Texture && p.symbols[j].location == Texture
    ensures SamplerName(SamplerNumberAsWritten(p.symbols[i])) == "c_sampler-1"
    ensures SamplerName(SamplerNumberAsWritten(p.symbols[i])) == SamplerName(SamplerNumberAsWritten(p.symbols[j]))
  {
  }

  // ----- declarations -----

  /** The input declaration of `GenerateInputs` for one symbol: nothing for a symbol that is not
    * an input or that has the system position or color semantic. */
  function InputDeclaration(p: Program, stage: Stage, sym: Symbol): (r: Result<string>)
    ensures sym.location != Input ==> r == Ok("")
    ensures (sym.location == Input && GetInputSemantic(p, sym).Ok?
      && GetInputSemantic(p, sym).value.semantic in {SystemPosition, SystemColor}) ==> r == Ok("")
    ensures r.Ok? && r.value != "" ==>
      (&& sym.location == Input && GetInputSemantic(p, sym).Ok?
       && GetInputSemantic(p, sym).value.semantic in {Position, TexCoord}
       && MakeTypeName(sym.ty).Ok? && MakeLocalSymbolName(p, stage, sym).Ok?
       && r.value == (if stage == Vertex then "attribute" else "varying") + " "
          + MakeTypeName(sym.ty).value + " " + MakeLocalSymbolName(p, stage, sym).value + ";" + NewLine)
  {
    if sym.location != Input then Ok("")
    else
      var semantic :- GetInputSemantic(p, sym);
      if semantic.semantic == SystemPosition || semantic.semantic == SystemColor then Ok("")
      else
        var tag := if stage == Vertex then "attribute" else "varying";
        var ty :- MakeTypeName(sym.ty);
        var name :- MakeLocalSymbolName(p, stage, sym);
        Ok(tag + " " + ty + " " + name + ";" + NewLine)
  }

  /** The output declaration of `GenerateOutputs` for one symbol, with the same exclusions. */
  function OutputDeclaration(p: Program, stage: Stage, sym: Symbol): (r: Result<string>)
    ensures sym.location != Output ==> r == Ok("")
    ensures (sym.location == Output && GetOutputSemantic(p, sym).Ok?
      && GetOutputSemantic(p, sym).value.semantic in {SystemPosition, SystemColor}) ==> r == Ok("")
    ensures r.Ok? && r.value != "" ==>
      (&& sym.location == Output && GetOutputSemantic(p, sym).Ok?
       && GetOutputSemantic(p, sym).value.semantic in {Position, TexCoord}
       && MakeTypeName(sym.ty).Ok? && MakeLocalSymbolName(p, stage, sym).Ok?
       && r.value == (if stage == Vertex then "varying" else "(invalid)") + " "
          + MakeTypeName(sym.ty).value + " " + MakeLocalSymbolName(p, stage, sym).value + ";" + NewLine)
  {
    if sym.location != Output then Ok("")
    else
      var semantic :- GetOutputSemantic(p, sym);
      if semantic.semantic == SystemPosition || semantic.semantic == SystemColor then Ok("")
      else
        var tag := if stage == Vertex then "varying" else "(invalid)";
        var ty :- MakeTypeName(sym.ty);
        var name :- MakeLocalSymbolName(p, stage, sym);
        Ok(tag + " " + ty + " " + name + ";" + NewLine)
  }

  /** The uniform declaration of `GenerateUniforms`: a mat4 for a matrix, a vec4 otherwise. */
  function UniformDeclaration(p: Program, stage: Stage, sym: Symbol): (r: Result<string>)
    ensures sym.location != Uniform ==> r == Ok("")
    ensures sym.location == Uniform ==> (r.Ok? <==> GetUniformName(p, sym).Ok?)
    ensures r.Ok? && sym.location == Uniform ==>
      r.value == "uniform " + (if sym.ty == Matrix then "mat4" else "vec4") + " " + p.uniformNames[sym.index] + ";" + NewLine
  {
    if sym.location != Uniform then Ok("")
    else
      var name :- MakeLocalSymbolName(p, stage, sym);
      Ok("uniform " + (if sym.ty == Matrix then "mat4" else "vec4") + " " + name + ";" + NewLine)
  }

  /** The sampler declaration of `GenerateSamplers`: one per texture. */
  function SamplerDeclaration(sym: Symbol): (r: Result<string>)
    ensures r.Ok?
    ensures sym.location != Texture <==> r.value == ""
    ensures sym.location == Texture ==> r.value == "uniform sampler2D " + SamplerName(sym.unit) + ";" + NewLine
  {
    if sym.location != Texture then Ok("")
    else Ok("uniform sampler2D " + SamplerName(SamplerNumber(sym)) + ";" + NewLine)
  }

  /** The declaration of one temporary at the top of `main`, with its recorded value (zero when
    * none was recorded). `format` stands for the `%f` conversion of a float. */
  function TemporaryDeclaration(p: Program, stage: Stage, format: Float -> string, sym: Symbol): (r: Result<string>)
    ensures sym.location != Temporary ==> r == Ok("")
    ensures sym.location == Temporary ==> (r.Ok? <==> sym.ty == Float4)
    ensures r.Ok? && sym.location == Temporary ==>
      GetTemporaryValue(p, sym).Ok?
      && r.value == TemporaryText("t" + UnsignedAsD(sym.index), GetTemporaryValue(p, sym).value, format)
  {
    if sym.location != Temporary then Ok("")
    else
      var v :- GetTemporaryValue(p, sym);
      Ok(TemporaryText(MakeSymbolName(p, stage, sym).value, v, format))
  }

  /** A `vec4` temporary initialised with the four lanes of `v`. */
  function TemporaryText(name: string, v: Vec4<Float>, format: Float -> string): string
  {
    "\tvec4 " + name + " = vec4(" + format(v.x) + ", " + format(v.y) + ", " + format(v.z) + ", " + format(v.w) + ");" + NewLine
  }

  function InputDeclarations(p: Program, stage: Stage): Symbol -> Result<string>
  {
    sym => InputDeclaration(p, stage, sym)
  }

  function OutputDeclarations(p: Program, stage: Stage): Symbol -> Result<string>
  {
    sym => OutputDeclaration(p, stage, sym)
  }

  function UniformDeclarations(p: Program, stage: Stage): Symbol -> Result<string>
  {
    sym => UniformDeclaration(p, stage, sym)
  }

  function SamplerDeclarations(): Symbol -> Result<string>
  {
    sym => SamplerDeclaration(sym)
  }

  function TemporaryDeclarations(p: Program, stage: Stage, format: Float -> string): Symbol -> Result<string>
  {
    sym => TemporaryDeclaration(p, stage, format, sym)
  }

  // ----- statements -----

  /** The operations the statement switch of `Generate` has a case for. */
  predicate Emits(op: Op)
  {
    op in {Add, Subtract, Multiply, Divide, Max, Dot, Pow, Mix, NewVector2, NewVector4,
           Assign, Negate, Saturate, Normalize, Length, Sample}
  }

  /** `PrintSymbolRef` as a function value, for the line helpers. */
  function Printer(p: Program, stage: Stage): SymbolRef -> Result<string>
  {
    ref => PrintSymbolRef(p, stage, ref)
  }

  /** `texture2D(sampler, coordinates)`, the sampler numbered by the texture in `src1`. */
  function SampleLine(p: Program, stage: Stage, s: Statement): (r: Result<string>)
    ensures s.src1.symbol.location != Texture ==> r.Err?
    ensures r.Ok? ==> PrintSymbolRef(p, stage, s.dst).Ok? && IsLineFor(PrintSymbolRef(p, stage, s.dst).value, r.value)
  {
    if s.src1.symbol.location != Texture then Err(SampleSourceNotTexture)
    else
      var dst :- PrintSymbolRef(p, stage, s.dst);
      var coordinates :- PrintSymbolRef(p, stage, s.src2);
      var rhs := "texture2D(" + SamplerName(SamplerNumber(s.src1.symbol)) + ", " + coordinates + ")";
      LineIsLine(dst, rhs);
      Ok(Line(dst, rhs))
  }

  /** The statement switch of `Generate`: one assignment line to the destination, or nothing for
    * a NEWVECTOR4 with fewer than two sources; an operation without a case is a contract
    * violation. */
  function StatementLine(p: Program, stage: Stage, s: Statement): (r: Result<string>)
    ensures !Emits(s.op) ==> r.Err?
    ensures s.op == Sample && s.src1.symbol.location != Texture ==> r.Err?
    ensures r.Ok? && r.value != "" ==>
      PrintSymbolRef(p, stage, s.dst).Ok? && IsLineFor(PrintSymbolRef(p, stage, s.dst).value, r.value)
    ensures r.Ok? && r.value == "" ==> s.op == NewVector4 && SourceCount(s).Ok? && SourceCount(s).value < 2
  {
    match s.op
    case Add => InfixLine(Printer(p, stage), s, "+")
    case Subtract => InfixLine(Printer(p, stage), s, "-")
    case Multiply => InfixLine(Printer(p, stage), s, "*")
    case Divide => InfixLine(Printer(p, stage), s, "/")
    case Max => CallLine(Printer(p, stage), s, "max", 2)
    case Dot => CallLine(Printer(p, stage), s, "dot", 2)
    case Pow => CallLine(Printer(p, stage), s, "pow", 2)
    case Mix => CallLine(Printer(p, stage), s, "mix", 3)
    case NewVector2 => CallLine(Printer(p, stage), s, "vec2", 2)
    case NewVector4 =>
      var n :- SourceCount(s);
      if 2 <= n <= 4 then CallLine(Printer(p, stage), s, "vec4", n) else Ok("")
    case Assign => UnaryLine(Printer(p, stage), s, "", "")
    case Negate => UnaryLine(Printer(p, stage), s, "-", "")
    case Saturate => UnaryLine(Printer(p, stage), s, "clamp(", ", 0.0, 1.0)")
    case Normalize => UnaryLine(Printer(p, stage), s, "normalize(", ")")
    case Length => UnaryLine(Printer(p, stage), s, "length(", ")")
    case Sample => SampleLine(p, stage, s)
    case _ => Err(UnsupportedStatement)
  }

  function StatementLines(p: Program, stage: Stage): Statement -> Result<string>
  {
    s => StatementLine(p, stage, s)
  }

  // ----- the whole text -----

  /** The declarations before `main`: precision (fragment shaders only), inputs, outputs,
    * uniforms and samplers. */
  function Declarations(p: Program, stage: Stage): Result<string>
  {
    var inputs :- Gather(p.symbols, InputDeclarations(p, stage));
    var outputs :- Gather(p.symbols, OutputDeclarations(p, stage));
    var uniforms :- Gather(p.symbols, UniformDeclarations(p, stage));
    var samplers :- Gather(p.symbols, SamplerDeclarations());
    Ok(StageHeader(stage) + inputs + outputs + uniforms + samplers)
  }

  function StageHeader(stage: Stage): string
  {
    if stage == Fragment then Precision else ""
  }

  /** Everything before the first statement line: the declarations, the header of `main` and the
    * temporaries. */
  function Prologue(p: Program, stage: Stage, format: Float -> string): Result<string>
  {
    var declarations :- Declarations(p, stage);
    var temporaries :- Gather(p.symbols, TemporaryDeclarations(p, stage, format));
    Ok(declarations + MainHeader + temporaries)
  }

  /** The text `Generate` returns: the prologue, one line per statement and the closing brace. */
  function GlslText(p: Program, stage: Stage, format: Float -> string): Result<string>
  {
    var prologue :- Prologue(p, stage, format);
    var body :- Gather(p.statements, StatementLines(p, stage));
    Ok(prologue + body + MainFooter)
  }

  lemma SamplersOk(p: Program)
    ensures Gather(p.symbols, SamplerDeclarations()).Ok?
  {
    GatherOk(p.symbols, SamplerDeclarations());
  }

  /** `CGlslShaderGenerator::Generate`: appends the declarations, then `main` with its temporaries
    * and the line of each statement, in the order of the source. */
  method Generate(p: Program, stage: Stage, format: Float -> string) returns (r: Result<string>)
    ensures r == GlslText(p, stage, format)
  {
    var result := StageHeader(stage);
    var inputs := Concatenate(p.symbols, InputDeclarations(p, stage));
    if inputs.Err? {
      return Err(inputs.error);
    }
    var outputs := Concatenate(p.symbols, OutputDeclarations(p, stage));
    if outputs.Err? {
      return Err(outputs.error);
    }
    var uniforms := Concatenate(p.symbols, UniformDeclarations(p, stage));
    if uniforms.Err? {
      return Err(uniforms.error);
    }
    var samplers := Concatenate(p.symbols, SamplerDeclarations());
    SamplersOk(p);
    result := result + inputs.value + outputs.value + uniforms.value + samplers.value;
    assert Declarations(p, stage) == Ok(result);
    result := result + MainHeader;
    var temporaries := Concatenate(p.symbols, TemporaryDeclarations(p, stage, format));
    if temporaries.Err? {
      return Err(temporaries.error);
    }
    result := result + temporaries.value;
    assert Prologue(p, stage, format) == Ok(result);
    var body := Concatenate(p.statements, StatementLines(p, stage));
    if body.Err? {
      return Err(body.error);
    }
    result := result + body.value;
    result := result + MainFooter;
    r := Ok(result);
  }

  // ----- properties of the whole text -----

  /** A fragment shader's text starts with the precision statement. */
  lemma FragmentStartsWithPrecision(p: Program, format: Float -> string)
    requires GlslText(p, Fragment, format).Ok?
    ensures Precision <= GlslText(p, Fragment, format).value
  {
    var inputs := Gather(p.symbols, InputDeclarations(p, Fragment)).value;
    var outputs := Gather(p.symbols, OutputDeclarations(p, Fragment)).value;
    var uniforms := Gather(p.symbols, UniformDeclarations(p, Fragment)).value;
    var samplers := Gather(p.symbols, SamplerDeclarations()).value;
    var temporaries := Gather(p.symbols, TemporaryDeclarations(p, Fragment, format)).value;
    var body := Gather(p.statements, StatementLines(p, Fragment)).value;
    PrefixAppend(Precision, Precision, inputs);
    PrefixAppend(Precision, Precision + inputs, outputs);
    PrefixAppend(Precision, Precision + inputs + outputs, uniforms);
    PrefixAppend(Precision, Precision + inputs + outputs + uniforms, samplers);
    var d := Precision + inputs + outputs + uniforms + samplers;
    PrefixAppend(Precision, d, MainHeader);
    PrefixAppend(Precision, d + MainHeader, temporaries);
    PrefixAppend(Precision, d + MainHeader + temporaries, body);
    PrefixAppend(Precision, d + MainHeader + temporaries + body, MainFooter);
  }

  /** The text ends with the closing brace of `main`. */
  lemma EndsWithClosingBrace(p: Program, stage: Stage, format: Float -> string)
    requires GlslText(p, stage, format).Ok?
    ensures |GlslText(p, stage, format).value| >= |MainFooter|
    ensures GlslText(p, stage, format).value[|GlslText(p, stage, format).value| - |MainFooter|..] == MainFooter
  {
    var prologue := Prologue(p, stage, format).value;
    var body := Gather(p.statements, StatementLines(p, stage)).value;
    var t := prologue + body + MainFooter;
    assert t[|t| - |MainFooter|..] == MainFooter;
  }

  /** The text fails exactly when a declaration, a temporary or a statement fails. */
  lemma TextOk(p: Program, stage: Stage, format: Float -> string)
    ensures GlslText(p, stage, format).Ok? <==>
      && (forall k :: 0 <= k < |p.symbols| ==>
            InputDeclaration(p, stage, p.symbols[k]).Ok? && OutputDeclaration(p, stage, p.symbols[k]).Ok?
            && UniformDeclaration(p, stage, p.symbols[k]).Ok? && TemporaryDeclaration(p, stage, format, p.symbols[k]).Ok?)
      && (forall k :: 0 <= k < |p.statements| ==> StatementLine(p, stage, p.statements[k]).Ok?)
  {
    GatherOk(p.symbols, InputDeclarations(p, stage));
    GatherOk(p.symbols, OutputDeclarations(p, stage));
    GatherOk(p.symbols, UniformDeclarations(p, stage));
    SamplersOk(p);
    GatherOk(p.symbols, TemporaryDeclarations(p, stage, format));
    GatherOk(p.statements, StatementLines(p, stage));
  }

  /** Statement `k`'s line sits in the text after the prologue and the lines of the statements
    * before it, and before the lines of the statements after it and the closing brace. */
  lemma StatementsInOrder(p: Program, stage: Stage, format: Float -> string, k: nat)
    requires GlslText(p, stage, format).Ok? && k < |p.statements|
    ensures Prologue(p, stage, format).Ok? && StatementLine(p, stage, p.statements[k]).Ok?
    ensures Gather(p.statements[..k], StatementLines(p, stage)).Ok?
    ensures Gather(p.statements[k + 1..], StatementLines(p, stage)).Ok?
    ensures GlslText(p, stage, format).value
      == Prologue(p, stage, format).value + Gather(p.statements[..k], StatementLines(p, stage)).value
         + StatementLine(p, stage, p.statements[k]).value
         + Gather(p.statements[k + 1..], StatementLines(p, stage)).value + MainFooter
  {
    var f := StatementLines(p, stage);
    GatherAt(p.statements, f, k);
    var prologue := Prologue(p, stage, format).value;
    var before, line, after := Gather(p.statements[..k], f).value, f(p.statements[k]).value, Gather(p.statements[k + 1..], f).value;
    Regrouped(prologue, before + line, after);
    Regrouped(prologue, before, line);
  }
}

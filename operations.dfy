/** The operators and helpers of the embedding layer (src/builder/Operations.cpp). Each value
  * producing operator draws exactly one fresh temporary of a fixed type from the builder and
  * appends exactly one statement that writes it; the `New*` literal helpers create one padded
  * constant and append nothing; the commands (assignment, stores, control flow) append one
  * statement and create no symbol. */
module Operations {
  import opened Wrappers
  import opened Swizzle
  import opened Ir
  import opened ShaderProgram
  import opened Builder
  import opened Values

  /** `CHECK_ISOPERANDVALID` and the owner checks: the operand refers to a symbol of the builder,
    * i.e. one with a type (a default `SYMBOL` has the null type and no owner). */
  predicate Typed(r: SymbolRef)
  {
    r.symbol.ty != NullType
  }

  /** The value-producing operations, one constructor per family of C++ overloads. */
  datatype Operator =
    | Binary(op: Op, kind: ViewKind)          // the GENERATE_VECTOR_BINARY_*_OP instantiations
    | Compare(op: Op, kind: ViewKind)         // the GENERATE_VECTOR_COMPARE_OP instantiations
    | MatrixTimesVector                       // CMatrix44Value * CFloat4Value
    | Complement                              // ~ on CUintValue
    | LogicalAndOp | LogicalOrOp | LogicalNotOp
    | ClampOp(kind: ViewKind)
    | FractOp
    | MinOp                                   // Min(CUint4Value, CUint4Value)
    | MixOp(kind: ViewKind)
    | NormalizeOp
    | SaturateOp
    | ShiftRightArithmeticOp
    | Construct(kind: ViewKind, arity: nat)   // NewFloat2(x, y), NewFloat4(xyz, w), NewInt4(x, y, z, w), ...
    | SampleOp
    | LoadOp(kind: ViewKind)                  // image, buffer and subpass loads, by result kind
    | AtomicOp(op: Op)                        // AtomicAnd / AtomicOr on an image or a buffer
    | Convert(op: Op, kind: ViewKind)         // ToFloat, ToInt, ToUint, ToUshort, ToUchar

  /** What an operator does: the statement operation, the type of the temporary it creates, the
    * view it returns, how many operands it takes, and how many of the leading operands it
    * checks. */
  datatype Shape = Shape(op: Op, temp: SymbolType, result: ViewKind, arity: nat, checked: nat)

  /** The temporary type the `CreateTemporary*` call of a family gives. */
  function TempType(f: Family): SymbolType
  {
    match f
    case FloatFamily => Float4
    case IntFamily => Int4
    case BoolFamily => Bool
    case _ => Uint4
  }

  predicate IsBinaryInstance(op: Op, k: ViewKind)
  {
    match op
    case Add => k in {FloatView, Float2View, Float3View, Float4View, IntView, Int2View, Int3View, UintView, Uint3View}
    case Subtract => k in {FloatView, Float3View, Float4View, IntView, Int3View, Uint3View}
    case Multiply => k in {FloatView, Float2View, Float3View, Float4View, IntView, Int2View, Int3View, UintView, Uint3View}
    case Divide => k in {FloatView, Float2View, Float4View, IntView}
    case Modulo => k == IntView
    case LShift => k in {IntView, UintView}
    case RShift => k in {IntView, UintView, Uint3View}
    case And => k in {IntView, Int4View, UintView, Uint4View}
    case Or => k in {IntView, UintView}
    case Xor => k == UintView
    case _ => false
  }

  predicate IsCompareInstance(op: Op, k: ViewKind)
  {
    match op
    case CompareEq => k in {FloatView, IntView, UintView}
    case CompareLt => k in {FloatView, IntView, UintView}
    case CompareNe | CompareLe | CompareGt | CompareGe => k in {IntView, UintView}
    case _ => false
  }

  /** The view a conversion returns determines its statement operation. */
  predicate IsConvertInstance(op: Op, k: ViewKind)
  {
    match op
    case ToFloat => k in {FloatView, Float2View, Float4View}
    case ToInt => k in {IntView, Int2View, Int4View}
    case ToUint => k in {UintView, Uint4View}
    case ToUshort => k == UshortView
    case ToUchar => k == UcharView
    case _ => false
  }

  /** The operator overloads Operations.cpp defines, and what each does; `None` for a
    * combination it does not define. Every operator takes one to four operands and checks a
    * prefix of them; its temporary has its result's scalar type, except that `Min` on Uint4
    * allocates a Float4 temporary. */
  function ShapeOf(o: Operator): (r: Option<Shape>)
    ensures r.Some? ==> 1 <= r.value.arity <= 4 && r.value.checked <= r.value.arity
  {
    match o
    case Binary(op, k) =>
      if IsBinaryInstance(op, k) then Some(Shape(op, TempType(FamilyOf(k)), k, 2, 2)) else None
    case Compare(op, k) =>
      if IsCompareInstance(op, k) then Some(Shape(op, Bool, BoolView, 2, 2)) else None
    case MatrixTimesVector => Some(Shape(Multiply, Float4, Float4View, 2, 2))
    case Complement => Some(Shape(Not, Uint4, UintView, 1, 1))
    case LogicalAndOp => Some(Shape(LogicalAnd, Bool, BoolView, 2, 2))
    case LogicalOrOp => Some(Shape(LogicalOr, Bool, BoolView, 2, 2))
    case LogicalNotOp => Some(Shape(LogicalNot, Bool, BoolView, 1, 1))
    case ClampOp(k) =>
      if k in {IntView, Int4View, Float4View} then Some(Shape(Clamp, TempType(FamilyOf(k)), k, 3, 3)) else None
    case FractOp => Some(Shape(Fract, Float4, Float2View, 1, 1))
    case MinOp => Some(Shape(Min, Float4, Uint4View, 2, 2))
    case MixOp(k) =>
      if k in {FloatView, Float3View} then Some(Shape(Mix, Float4, k, 3, 3)) else None
    case NormalizeOp => Some(Shape(Normalize, Float4, Float4View, 1, 1))
    case SaturateOp => Some(Shape(Saturate, Float4, FloatView, 1, 1))
    case ShiftRightArithmeticOp => Some(Shape(RShiftArithmetic, Int4, Int3View, 2, 2))
    case Construct(k, n) =>
      if (k, n) in {(Float2View, 2), (Int2View, 2)} then
        Some(Shape(NewVector2, TempType(FamilyOf(k)), k, 2, 2))
      else if (k, n) in {(Float4View, 2), (Float4View, 4), (Int4View, 2), (Int4View, 4), (Uint4View, 2)} then
        Some(Shape(NewVector4, TempType(FamilyOf(k)), k, n, 2))
      else None
    case SampleOp => Some(Shape(Sample, Float4, Float4View, 2, 2))
    case LoadOp(k) =>
      if k in {Uint4View, UintView, Float4View} then Some(Shape(Load, TempType(FamilyOf(k)), k, 2, 2)) else None
    case AtomicOp(op) =>
      if op == AtomicAnd || op == AtomicOr then Some(Shape(op, Uint4, UintView, 3, 2)) else None
    case Convert(op, k) =>
      if IsConvertInstance(op, k) then Some(Shape(op, TempType(FamilyOf(k)), k, 1, 1)) else None
  }

  /** Every temporary an operator creates is a four-lane or bool temporary, of its result's
    * scalar type except for `Min` on Uint4. */
  lemma ShapeOfTemp(o: Operator)
    requires ShapeOf(o).Some?
    ensures ShapeOf(o).value.temp in {Float4, Int4, Uint4, Bool}
    ensures ShapeOf(o).value.temp == TempType(FamilyOf(ShapeOf(o).value.result)) <==> o != MinOp
  {
  }

  /** The source slot `i` of a statement built from `args`: the argument, or the default null
    * reference past the end. */
  function Slot(args: seq<SymbolRef>, i: nat): SymbolRef
  {
    if i < |args| then args[i] else NullRef
  }

  /** A `STATEMENT` with the given sources, the remaining slots left at their default. */
  function MakeStatement(op: Op, dst: SymbolRef, args: seq<SymbolRef>): (s: Statement)
    requires |args| <= 4
    ensures s.op == op && s.dst == dst
    ensures forall i :: 0 <= i < 4 ==> Sources(s)[i] == (if i < |args| then args[i] else NullRef)
  {
    Statement(op, dst, Slot(args, 0), Slot(args, 1), Slot(args, 2), Slot(args, 3))
  }

  /** A statement built from references to real symbols is accepted by `GetSourceCount`, which
    * counts exactly its arguments. */
  lemma MakeStatementSourceCount(op: Op, dst: SymbolRef, args: seq<SymbolRef>)
    requires |args| <= 4
    requires forall i :: 0 <= i < |args| ==> !IsNull(args[i])
    ensures SourceCount(MakeStatement(op, dst, args)) == Ok(|args|)
  {
    var srcs := Sources(MakeStatement(op, dst, args));
    assert forall k :: 0 <= k < 4 ==> (IsNull(srcs[k]) <==> |args| <= k);
    assert Contiguous(srcs);
    var r := SourceCount(MakeStatement(op, dst, args));
    if |args| > 0 {
      assert !IsNull(srcs[|args| - 1]);
    }
    if |args| < 4 {
      assert IsNull(srcs[|args|]);
    }
  }

  /** Runs a value-producing operator on `args`. When a checked operand has no symbol the
    * operator fails and the builder is unchanged. Otherwise it creates one temporary of the
    * operator's type, appends one statement writing it from `args`, and returns the operator's
    * view of the temporary (with that view's default Rvalue swizzle). */
  method Apply(b: ShaderBuilder, o: Operator, args: seq<SymbolRef>) returns (r: Result<View>)
    requires b.Valid()
    requires ShapeOf(o).Some? && |args| == ShapeOf(o).value.arity
    modifies b`symbols, b`currentTempIndex, b`statements
    ensures b.Valid()
    ensures r.Ok? <==> forall i :: 0 <= i < ShapeOf(o).value.checked ==> Typed(args[i])
    ensures r.Err? ==>
      && b.symbols == old(b.symbols) && b.statements == old(b.statements)
      && b.currentTempIndex == old(b.currentTempIndex)
    ensures r.Ok? ==>
      var sh := ShapeOf(o).value;
      var temp := Symbol(sh.temp, Temporary, 0, old(b.currentTempIndex));
      && r.value == NewView(sh.result, RvalueForm, temp)
      && b.symbols == old(b.symbols) + [temp]
      && b.currentTempIndex == ToU32(old(b.currentTempIndex) + 1)
      && b.statements == old(b.statements) + [MakeStatement(sh.op, r.value.ref, args)]
  {
    var sh := ShapeOf(o).value;
    if !(forall i :: 0 <= i < sh.checked ==> Typed(args[i])) {
      return Err("operand without a symbol");
    }
    var temp := b.CreateTemporary(sh.temp);
    r := Ok(NewView(sh.result, RvalueForm, temp));
    b.InsertStatement(MakeStatement(sh.op, r.value.ref, args));
  }

  /** The statement-only operations. */
  datatype Command =
    | AssignCmd(kind: ViewKind)   // C<Kind>Lvalue::operator =
    | StoreCmd(op: Op)            // Store on an image or a buffer (STORE), a ushort (STORE16) or uchar (STORE8) buffer
    | ReturnCmd | InterlockBeginCmd | InterlockEndCmd | EndIfCmd
    | BeginIfCmd

  /** The commands Operations.cpp defines, with their operand count and how many leading
    * operands they check; `None` for one it does not define. */
  function CommandShape(c: Command): (r: Option<(nat, nat)>)
    ensures r.Some? ==> r.value.1 <= r.value.0 <= 3
  {
    match c
    case AssignCmd(k) =>
      if k in {BoolView, FloatView, Float2View, Float4View, IntView, Int2View, Int4View, UintView, Uint4View}
      then Some((2, 2)) else None
    case StoreCmd(op) => if op in {Store, Store16, Store8} then Some((3, 2)) else None
    case ReturnCmd | InterlockBeginCmd | InterlockEndCmd | EndIfCmd => Some((0, 0))
    case BeginIfCmd => Some((1, 0))
  }

  /** The statement a command appends. An assignment writes its left operand from its right
    * one; a store has no destination and three sources; the control statements have neither a
    * destination nor a source, except that IF_BEGIN reads its condition. */
  function CommandStatement(c: Command, args: seq<SymbolRef>): (s: Statement)
    requires CommandShape(c).Some? && |args| == CommandShape(c).value.0
    ensures c.AssignCmd? ==> s.op == Assign && s.dst == args[0] && Sources(s) == [args[1], NullRef, NullRef, NullRef]
    ensures !c.AssignCmd? ==> IsNull(s.dst)
    ensures c.StoreCmd? ==> s.op == c.op && Sources(s) == args + [NullRef]
    ensures c.BeginIfCmd? ==> s.op == IfBegin && s.src1 == args[0] && IsNull(s.src2)
    ensures c in {ReturnCmd, InterlockBeginCmd, InterlockEndCmd, EndIfCmd} ==>
      s.op in {Return, InvocationInterlockBegin, InvocationInterlockEnd, IfEnd} && Sources(s) == [NullRef, NullRef, NullRef, NullRef]
  {
    match c
    case AssignCmd(_) => Statement(Assign, args[0], args[1])
    case StoreCmd(op) => Statement(op, NullRef, args[0], args[1], args[2])
    case ReturnCmd => Statement(Return, NullRef, NullRef)
    case InterlockBeginCmd => Statement(InvocationInterlockBegin, NullRef, NullRef)
    case InterlockEndCmd => Statement(InvocationInterlockEnd, NullRef, NullRef)
    case EndIfCmd => Statement(IfEnd, NullRef, NullRef)
    case BeginIfCmd => Statement(IfBegin, NullRef, args[0])
  }

  /** Runs a command: when its checked operands have symbols it appends its one statement,
    * otherwise it fails; it never creates a symbol. */
  method Perform(b: ShaderBuilder, c: Command, args: seq<SymbolRef>) returns (r: Result<Statement>)
    requires b.Valid()
    requires CommandShape(c).Some? && |args| == CommandShape(c).value.0
    modifies b`statements
    ensures b.Valid()
    ensures r.Ok? <==> forall i :: 0 <= i < CommandShape(c).value.1 ==> Typed(args[i])
    ensures r.Err? ==> b.statements == old(b.statements)
    ensures r.Ok? ==> r.value == CommandStatement(c, args) && b.statements == old(b.statements) + [r.value]
  {
    if !(forall i :: 0 <= i < CommandShape(c).value.1 ==> Typed(args[i])) {
      return Err("operand without a symbol");
    }
    var s := CommandStatement(c, args);
    b.InsertStatement(s);
    r := Ok(s);
  }

  /** The lanes of a literal followed by `fill` up to four lanes. */
  function Pad<T>(lanes: seq<T>, fill: T): (v: Vec4<T>)
    requires 1 <= |lanes| <= 4
    ensures forall i :: 0 <= i < 4 ==> v.Lane(i) == (if i < |lanes| then lanes[i] else fill)
  {
    Vec4(lanes[0],
      if 1 < |lanes| then lanes[1] else fill,
      if 2 < |lanes| then lanes[2] else fill,
      if 3 < |lanes| then lanes[3] else fill)
  }

  function FloatKind(n: nat): (k: ViewKind)
    requires 1 <= n <= 4
    ensures FamilyOf(k) == FloatFamily && Width(k) == n
  {
    if n == 1 then FloatView else if n == 2 then Float2View else if n == 3 then Float3View else Float4View
  }

  function IntKind(n: nat): (k: ViewKind)
    requires 1 <= n <= 4
    ensures FamilyOf(k) == IntFamily && Width(k) == n
  {
    if n == 1 then IntView else if n == 2 then Int2View else if n == 3 then Int3View else Int4View
  }

  function UintKind(n: nat): (k: ViewKind)
    requires n in {1, 3, 4}
    ensures FamilyOf(k) == UintFamily && Width(k) == n
  {
    if n == 1 then UintView else if n == 3 then Uint3View else Uint4View
  }

  /** `NewFloat`, `NewFloat2`, `NewFloat3`, `NewFloat4` on literals: one Float4 constant whose
    * unused lanes are 0, viewed with the width of the literal; no statement. */
  method NewFloatLiteral(b: ShaderBuilder, lanes: seq<Float>) returns (v: View)
    requires b.Valid()
    requires 1 <= |lanes| <= 4
    modifies b`symbols, b`currentTempIndex, b`temporaryValues
    ensures b.Valid()
    ensures v == NewView(FloatKind(|lanes|), RvalueForm, Symbol(Float4, Temporary, 0, old(b.currentTempIndex)))
    ensures b.symbols == old(b.symbols) + [v.ref.symbol]
    ensures b.currentTempIndex == ToU32(old(b.currentTempIndex) + 1)
    ensures b.temporaryValues == Insert(old(b.temporaryValues), v.ref.symbol.index, Pad(lanes, FloatZero))
    ensures b.statements == old(b.statements)
  {
    var sym := b.CreateConstant(Pad(lanes, FloatZero));
    v := NewView(FloatKind(|lanes|), RvalueForm, sym);
  }

  /** `NewInt`, `NewInt2`, `NewInt3`, `NewInt4` on literals: one Int4 constant whose unused
    * lanes are 1; no statement. */
  method NewIntLiteral(b: ShaderBuilder, lanes: seq<i32>) returns (v: View)
    requires b.Valid()
    requires 1 <= |lanes| <= 4
    modifies b`symbols, b`currentTempIndex, b`temporaryValuesInt
    ensures b.Valid()
    ensures v == NewView(IntKind(|lanes|), RvalueForm, Symbol(Int4, Temporary, 0, old(b.currentTempIndex)))
    ensures b.symbols == old(b.symbols) + [v.ref.symbol]
    ensures b.currentTempIndex == ToU32(old(b.currentTempIndex) + 1)
    ensures b.temporaryValuesInt == Insert(old(b.temporaryValuesInt), v.ref.symbol.index, Pad(lanes, 1))
    ensures b.statements == old(b.statements)
  {
    var sym := b.CreateConstantInt(Pad(lanes, 1));
    v := NewView(IntKind(|lanes|), RvalueForm, sym);
  }

  /** `NewUint`, `NewUint3`, `NewUint4` on literals: one Uint4 constant whose unused lanes are
    * 1 (stored reinterpreted as `int32`); no statement. */
  method NewUintLiteral(b: ShaderBuilder, lanes: seq<u32>) returns (v: View)
    requires b.Valid()
    requires |lanes| in {1, 3, 4}
    modifies b`symbols, b`currentTempIndex, b`temporaryValuesInt
    ensures b.Valid()
    ensures v == NewView(UintKind(|lanes|), RvalueForm, Symbol(Uint4, Temporary, 0, old(b.currentTempIndex)))
    ensures b.symbols == old(b.symbols) + [v.ref.symbol]
    ensures b.currentTempIndex == ToU32(old(b.currentTempIndex) + 1)
    ensures var p := Pad(lanes, 1);
      b.temporaryValuesInt == Insert(old(b.temporaryValuesInt), v.ref.symbol.index, Vec4(ToI32(p.x), ToI32(p.y), ToI32(p.z), ToI32(p.w)))
    ensures b.statements == old(b.statements)
  {
    var sym := b.CreateConstantUint(Pad(lanes, 1));
    v := NewView(UintKind(|lanes|), RvalueForm, sym);
  }

  /** `NewBool`: one Bool constant; no statement. */
  method NewBoolLiteral(b: ShaderBuilder, x: bool) returns (v: View)
    requires b.Valid()
    modifies b`symbols, b`currentTempIndex, b`temporaryValuesBool
    ensures b.Valid()
    ensures v == NewView(BoolView, RvalueForm, Symbol(Bool, Temporary, 0, old(b.currentTempIndex)))
    ensures b.symbols == old(b.symbols) + [v.ref.symbol]
    ensures b.currentTempIndex == ToU32(old(b.currentTempIndex) + 1)
    ensures b.temporaryValuesBool == Insert(old(b.temporaryValuesBool), v.ref.symbol.index, x)
    ensures b.statements == old(b.statements)
  {
    var sym := b.CreateConstantBool(x);
    v := NewView(BoolView, RvalueForm, sym);
  }
}

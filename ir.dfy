/** The shader intermediate representation of the builder: symbols, references to symbols, and
  * statements (include/nuanceur/builder/ShaderBuilder.h). */
module Ir {
  import opened Wrappers
  import opened Swizzle

  const U32_LIMIT: int := 0x1_0000_0000

  /** A C++ `unsigned int` / `uint32`. */
  type u32 = x: int | 0 <= x < U32_LIMIT

  /** A C++ `int32`. */
  type i32 = x: int | -0x8000_0000 <= x < 0x8000_0000

  /** Conversion of any integer to `uint32`: reduction modulo 2^32. */
  function ToU32(x: int): (r: u32)
    ensures 0 <= x < U32_LIMIT ==> r == x
    ensures 0 <= x ==> r <= x
    ensures (r - x) % U32_LIMIT == 0
  {
    x % U32_LIMIT
  }

  /** Conversion of any integer to `int32` (two's complement reinterpretation of the low 32 bits). */
  function ToI32(x: int): (r: i32)
    ensures -0x8000_0000 <= x < 0x8000_0000 ==> r == x
    ensures (r - x) % U32_LIMIT == 0
  {
    var u := x % U32_LIMIT;
    if u < 0x8000_0000 then u else u - U32_LIMIT
  }

  /** Adding to a wrapped value wraps the same as adding first. */
  lemma ToU32Add(x: int, y: int)
    ensures ToU32(ToU32(x) + y) == ToU32(x + y)
  {
    var q := x / U32_LIMIT;
    assert x == q * U32_LIMIT + ToU32(x);
    assert x + y == q * U32_LIMIT + (ToU32(x) + y);
  }

  /** Reinterpreting a `uint32` as `int32` and back loses nothing. */
  lemma I32RoundTrip(x: u32)
    ensures ToU32(ToI32(x)) == x
  {
  }

  /** A 32-bit floating point payload, carried only as its bit pattern: the model performs no
    * floating point arithmetic. Bit pattern 0 is +0.0. */
  type Float = u32
  const FloatZero: Float := 0

  /** `CVector4` and `CIntVector4`: four lanes of a constant. */
  datatype Vec4<T> = Vec4(x: T, y: T, z: T, w: T)
  {
    function Lane(i: nat): T
      requires i < 4
    {
      if i == 0 then x else if i == 1 then y else if i == 2 then z else w
    }
  }

  datatype Semantic = SemanticNone | SystemPosition | SystemColor | SystemGiid | Position | TexCoord

  datatype SemanticInfo = SemanticInfo(semantic: Semantic, index: u32)

  datatype MetadataType = LocalSizeX | LocalSizeY | LocalSizeZ

  /** `SYMBOL_TYPE`. The header declares the byte-array type as ARRAYUINT8; the builder and the
    * generators use the name ARRAYUCHAR, which the model follows. */
  datatype SymbolType =
    | NullType | Float4 | Int4 | Uint4 | Bool | Matrix
    | ArrayUint | ArrayUchar | Texture2D | Image2DUint

  /** `SYMBOL_LOCATION`. */
  datatype Location = NullLocation | Temporary | Variable | Input | Output | Uniform | Texture

  /** `SYMBOL`, without its owner pointer (the model has a single builder). */
  datatype Symbol = Symbol(ty: SymbolType, location: Location, unit: u32, index: u32)

  /** A default-constructed `SYMBOL`: null type and location, unit 0, index 0. */
  const NullSymbol: Symbol := Symbol(NullType, NullLocation, 0, 0)

  /** The `-1` stored in the unsigned index of every texture and image symbol. */
  const NoIndex: u32 := 0xFFFF_FFFF

  /** `UNIFORM_UNIT_PUSHCONSTANT`, the `-1` unit of push constants, as an unsigned unit. */
  const PushConstantUnit: u32 := 0xFFFF_FFFF

  /** `SYMBOLREF`: a symbol read or written through a swizzle. */
  datatype SymbolRef = SymbolRef(symbol: Symbol, swizzle: Swizzle)

  /** A default-constructed `SYMBOLREF`: the null symbol with swizzle XYZW. */
  const NullRef: SymbolRef := SymbolRef(NullSymbol, XYZW)

  predicate IsNull(r: SymbolRef)
  {
    r.symbol.location == NullLocation
  }

  /** `STATEMENT_OP`, with the operations that the builder and the generators use although the
    * header does not declare them (MIN, RSHIFT_ARITHMETIC, STORE16, STORE8, TOUSHORT, TOUCHAR). */
  datatype Op =
    | Nop | Add | Subtract | Multiply | Divide | Modulo
    | And | Or | Xor | Not | LShift | RShift | RShiftArithmetic
    | LogicalAnd | LogicalOr | LogicalNot
    | CompareEq | CompareNe | CompareLt | CompareLe | CompareGt | CompareGe
    | Min | Max | Dot | Pow | Negate | Clamp | Fract | Mix | Normalize | Saturate | Length
    | NewVector2 | NewVector4 | Assign | Sample | Load | Store | Store16 | Store8
    | AtomicAnd | AtomicOr | ToFloat | ToInt | ToUint | ToUshort | ToUchar
    | Return | InvocationInterlockBegin | InvocationInterlockEnd | IfBegin | IfEnd

  /** `STATEMENT`: an operation, a destination and up to four sources. As with the C++
    * constructor, the sources after the first default to the null reference. */
  datatype Statement = Statement(
    op: Op, dst: SymbolRef, src1: SymbolRef,
    src2: SymbolRef := NullRef, src3: SymbolRef := NullRef, src4: SymbolRef := NullRef)

  function Sources(s: Statement): (r: seq<SymbolRef>)
  {
    [s.src1, s.src2, s.src3, s.src4]
  }

  /** No source slot is filled after an empty one. */
  predicate Contiguous(srcs: seq<SymbolRef>)
  {
    forall i, j :: 0 <= i < j < |srcs| && !IsNull(srcs[j]) ==> !IsNull(srcs[i])
  }

  /** Reference count: how many slots are filled, wherever they are. */
  function FilledCount(srcs: seq<SymbolRef>): nat
  {
    if srcs == [] then 0 else (if IsNull(srcs[0]) then 0 else 1) + FilledCount(srcs[1..])
  }

  lemma {:induction false} FilledCountOfPrefix(srcs: seq<SymbolRef>, n: nat)
    requires n <= |srcs|
    requires forall k :: 0 <= k < n ==> !IsNull(srcs[k])
    requires forall k :: n <= k < |srcs| ==> IsNull(srcs[k])
    ensures FilledCount(srcs) == n
  {
    if srcs != [] {
      FilledCountOfPrefix(srcs[1..], if n == 0 then 0 else n - 1);
    }
  }

  /** `STATEMENT::GetSourceCount`: the number of source slots in use. The slots must be filled
    * from the first without gaps; a gap is a contract violation. */
  function SourceCount(s: Statement): (r: Result<nat>)
    ensures r.Ok? <==> Contiguous(Sources(s))
    ensures r.Ok? ==> r.value <= 4 && r.value == FilledCount(Sources(s))
    ensures r.Ok? ==> forall k :: 0 <= k < 4 ==> (IsNull(Sources(s)[k]) <==> r.value <= k)
  {
    var srcs := Sources(s);
    if !IsNull(s.src4) then
      if IsNull(s.src1) || IsNull(s.src2) || IsNull(s.src3) then
        assert !IsNull(srcs[3]) && (IsNull(srcs[0]) || IsNull(srcs[1]) || IsNull(srcs[2]));
        Err("GetSourceCount: source slots are not contiguous")
      else
        FilledCountOfPrefix(srcs, 4);
        Ok(4)
    else if !IsNull(s.src3) then
      if IsNull(s.src1) || IsNull(s.src2) then
        assert !IsNull(srcs[2]) && (IsNull(srcs[0]) || IsNull(srcs[1]));
        Err("GetSourceCount: source slots are not contiguous")
      else
        FilledCountOfPrefix(srcs, 3);
        Ok(3)
    else if !IsNull(s.src2) then
      if IsNull(s.src1) then
        assert !IsNull(srcs[1]) && IsNull(srcs[0]);
        Err("GetSourceCount: source slots are not contiguous")
      else
        FilledCountOfPrefix(srcs, 2);
        Ok(2)
    else if !IsNull(s.src1) then
      FilledCountOfPrefix(srcs, 1);
      Ok(1)
    else
      FilledCountOfPrefix(srcs, 0);
      Ok(0)
  }
}

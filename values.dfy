/** The typed views of the embedding layer (`C<Kind>Value`, `C<Kind>Lvalue`, `C<Kind>Rvalue`
  * in the `Value.h` headers of include/nuanceur/builder) and the swizzle selectors reached through their
  * `operator ->`. A view is a symbol reference whose swizzle defaults according to its width. */
module Values {
  import opened Wrappers
  import opened Swizzle
  import opened Ir

  datatype ViewKind =
    | FloatView | Float2View | Float3View | Float4View
    | IntView | Int2View | Int3View | Int4View
    | UintView | Uint3View | Uint4View
    | BoolView | Bool2View
    | UshortView | UcharView | Uint16View | Uint8View

  /** The scalar type a view's lanes hold. */
  datatype Family = FloatFamily | IntFamily | UintFamily | BoolFamily | Uint16Family | Uint8Family

  function FamilyOf(k: ViewKind): Family
  {
    match k
    case FloatView | Float2View | Float3View | Float4View => FloatFamily
    case IntView | Int2View | Int3View | Int4View => IntFamily
    case UintView | Uint3View | Uint4View => UintFamily
    case BoolView | Bool2View => BoolFamily
    case UshortView | Uint16View => Uint16Family
    case UcharView | Uint8View => Uint8Family
  }

  /** The number of lanes a view of kind `k` stands for. */
  function Width(k: ViewKind): (n: nat)
    ensures 1 <= n <= 4
  {
    match k
    case FloatView | IntView | UintView | BoolView | UshortView | UcharView | Uint16View | Uint8View => 1
    case Float2View | Int2View | Bool2View => 2
    case Float3View | Int3View | Uint3View => 3
    case Float4View | Int4View | Uint4View => 4
  }

  /** Which of the three classes of a view was constructed. */
  datatype Form = ValueForm | LvalueForm | RvalueForm

  /** The swizzle a constructor uses when none is given (the Lvalue constructors take none). Every
    * default reads a prefix of the vector in place, and it reads exactly the view's lanes except
    * for the Float3 Rvalue, whose default is XYZW. */
  function DefaultSwizzle(k: ViewKind, f: Form): (s: Swizzle)
    ensures IsIdentitySwizzle(s)
    ensures |Lanes(s)| == Width(k) <==> !(k == Float3View && f == RvalueForm)
  {
    if k == Float3View && f == RvalueForm then XYZW
    else
      match Width(k)
      case 1 => X
      case 2 => XY
      case 3 => XYZ
      case 4 => XYZW
  }

  /** A typed view: a symbol reference together with the kind the embedding layer gives it. */
  datatype View = View(kind: ViewKind, ref: SymbolRef)

  /** The view constructors. The Value and Rvalue constructors take an optional swizzle; the
    * Lvalue constructors always use the default. The symbol is carried unchanged. */
  function NewView(k: ViewKind, f: Form, sym: Symbol, swizzle: Option<Swizzle> := None): (v: View)
    ensures v.kind == k && v.ref.symbol == sym
    ensures f == LvalueForm || swizzle.None? ==> v.ref.swizzle == DefaultSwizzle(k, f)
    ensures f != LvalueForm && swizzle.Some? ==> v.ref.swizzle == swizzle.value
  {
    if f != LvalueForm && swizzle.Some? then View(k, SymbolRef(sym, swizzle.value))
    else View(k, SymbolRef(sym, DefaultSwizzle(k, f)))
  }

  /** A defaulted view reads exactly its own lanes, in place, except the Float3 Rvalue. */
  lemma DefaultViewReadsItsLanes(k: ViewKind, f: Form, sym: Symbol)
    requires !(k == Float3View && f == RvalueForm)
    ensures var v := NewView(k, f, sym);
      Lanes(v.ref.swizzle) == Range4(Width(k))
  {
    var s := NewView(k, f, sym).ref.swizzle;
    assert IsIdentitySwizzle(s) && |Lanes(s)| == Width(k);
  }

  /** The lanes 0 .. n-1, for n at most 4. */
  function Range4(n: nat): (r: seq<nat>)
    requires n <= 4
    ensures |r| == n && forall i :: 0 <= i < n ==> r[i] == i
  {
    [0, 1, 2, 3][..n]
  }

  /** `CFloat2Value::operator ->`: the view must be unswizzled (XY); the selector it reaches was
    * built over the bare symbol. */
  function Float2Arrow(v: View): (r: Result<Symbol>)
    ensures r.Ok? <==> v.ref.swizzle == XY
    ensures r.Ok? ==> r.value == v.ref.symbol
  {
    if v.ref.swizzle == XY then Ok(v.ref.symbol)
    else Err("CFloat2Value::operator->: swizzled view")
  }

  /** A selector result is well typed: its kind belongs to `f` and has as many lanes as the
    * swizzle it carries. */
  predicate WellTyped(v: View, f: Family)
  {
    FamilyOf(v.kind) == f && Width(v.kind) == |Lanes(v.ref.swizzle)|
  }

  /** `CFloatSwizzleSelector4` (the selector of Float2 views): each accessor names its swizzle
    * and applies it to the stored symbol, whatever swizzle the view itself had. */
  function FloatSelect4(sym: Symbol, acc: Swizzle): (r: Option<View>)
    ensures r.Some? <==> acc in {X, Y, Z, W, XY, ZZ, WW, XYZ, WWW, XXXX, XYZW, WWWW}
    ensures r.Some? ==> r.value.ref == SymbolRef(sym, acc) && WellTyped(r.value, FloatFamily)
  {
    match acc
    case X | Y | Z | W => Some(View(FloatView, SymbolRef(sym, acc)))
    case XY | ZZ | WW => Some(View(Float2View, SymbolRef(sym, acc)))
    case XYZ | WWW => Some(View(Float3View, SymbolRef(sym, acc)))
    case XXXX | XYZW | WWWW => Some(View(Float4View, SymbolRef(sym, acc)))
    case _ => None
  }

  /** `CSwizzleSelector4` (the selector of Float4 Lvalues): xy, xyz, xxxx and xyzw over the
    * stored symbol. */
  function SwizzleSelect4(sym: Symbol, acc: Swizzle): (r: Option<View>)
    ensures r.Some? <==> acc in {XY, XYZ, XXXX, XYZW}
    ensures r.Some? ==> r.value.ref == SymbolRef(sym, acc) && WellTyped(r.value, FloatFamily)
  {
    match acc
    case XY => Some(View(Float2View, SymbolRef(sym, XY)))
    case XYZ => Some(View(Float3View, SymbolRef(sym, XYZ)))
    case XXXX | XYZW => Some(View(Float4View, SymbolRef(sym, acc)))
    case _ => None
  }

  /** `CFloatSwizzleSelector`: x and the broadcast xxx over the stored symbol. */
  function FloatSelect(sym: Symbol, acc: Swizzle): (r: Option<View>)
    ensures r.Some? <==> acc == X || acc == XXX
    ensures r.Some? ==> r.value.ref == SymbolRef(sym, acc) && WellTyped(r.value, FloatFamily)
  {
    match acc
    case X => Some(View(FloatView, SymbolRef(sym, X)))
    case XXX => Some(View(Float3View, SymbolRef(sym, XXX)))
    case _ => None
  }

  /** `CUintSwizzleSelector4`: x, y, z, w, xyz, xxxx and xyzw over the stored symbol. */
  function UintSelect4(sym: Symbol, acc: Swizzle): (r: Option<View>)
    ensures r.Some? <==> acc in {X, Y, Z, W, XYZ, XXXX, XYZW}
    ensures r.Some? ==> r.value.ref == SymbolRef(sym, acc) && WellTyped(r.value, UintFamily)
  {
    match acc
    case X | Y | Z | W => Some(View(UintView, SymbolRef(sym, acc)))
    case XYZ => Some(View(Uint3View, SymbolRef(sym, XYZ)))
    case XXXX | XYZW => Some(View(Uint4View, SymbolRef(sym, acc)))
    case _ => None
  }

  /** The accessors `CIntSwizzleSelector4` declares. */
  predicate IsIntAccessor(acc: Swizzle)
  {
    acc in {X, Y, Z, W, XY, ZW, XXX, XYZ, WWW, XYZW}
  }

  /** `CIntSwizzleSelector4` (the selector of Int4 views): it stores the whole reference, so each
    * accessor composes with the stored swizzle through `TransformSwizzle`, and fails where that
    * does. The result reads, through the stored swizzle, the lanes the accessor names. */
  function IntSelect4(ref: SymbolRef, acc: Swizzle): (r: Result<View>)
    ensures r.Ok? <==> IsIntAccessor(acc) && (IsIdentitySwizzle(ref.swizzle) || (ref.swizzle == ZW && (acc == X || acc == Y)))
    ensures r.Ok? ==> r.value.ref.symbol == ref.symbol && WellTyped(r.value, IntFamily)
    ensures r.Ok? ==> Composes(Lanes(ref.swizzle), Lanes(acc), Lanes(r.value.ref.swizzle))
    ensures r.Ok? && IsIdentitySwizzle(ref.swizzle) ==> r.value.ref.swizzle == acc
    ensures r.Ok? && ref.swizzle == ZW ==> r.value.ref.swizzle == (if acc == X then Z else W)
  {
    if !IsIntAccessor(acc) then Err("CIntSwizzleSelector4: no such accessor")
    else
      match Transform(ref.swizzle, acc)
      case Err(e) => Err(e)
      case Ok(s) =>
        var k := match acc
          case X | Y | Z | W => IntView
          case XY | ZW => Int2View
          case XXX | XYZ | WWW => Int3View
          case _ => Int4View;
        Ok(View(k, SymbolRef(ref.symbol, s)))
  }

  /** Selecting through a Float2 view ignores the view's own swizzle: two views of one symbol
    * that both pass the guard select the same references. */
  lemma Float2SelectIgnoresView(v1: View, v2: View, acc: Swizzle)
    requires Float2Arrow(v1).Ok? && Float2Arrow(v2).Ok?
    requires v1.ref.symbol == v2.ref.symbol
    ensures FloatSelect4(Float2Arrow(v1).value, acc) == FloatSelect4(Float2Arrow(v2).value, acc)
  {
  }

  /** Selecting through a freshly constructed Int4 view (default swizzle XYZW) always succeeds for
    * a declared accessor and gives that accessor's swizzle unchanged. */
  lemma Int4DefaultSelect(f: Form, sym: Symbol, acc: Swizzle)
    requires IsIntAccessor(acc)
    ensures var r := IntSelect4(NewView(Int4View, f, sym).ref, acc);
      r.Ok? && r.value.ref == SymbolRef(sym, acc)
  {
  }
}

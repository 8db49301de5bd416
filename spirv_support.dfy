/** The pure parts of the SPIR-V generator (src/generators/SpirvShaderGenerator.cpp): semantic
  * locations, the `OpVectorShuffle` component lists of swizzled loads and NEWVECTOR lowering,
  * the uniform block layout, and the key order in which a `std::map` is walked. */
module SpirvSupport {
  import opened Wrappers
  import opened Swizzle
  import opened Ir
  import opened ShaderProgram
  import opened Spv
  import opened SpirvEncoding

  // ----- failure messages (the source asserts; the model stops with one of these) -----

  const MapSemanticToLocationPositionIndexMustBe0: string := "MapSemanticToLocation: position index must be 0"
  const MapSemanticToLocationUnsupportedSemantic: string := "MapSemanticToLocation: unsupported semantic"
  const LoadFromSymbolUnsupportedSwizzle: string := "LoadFromSymbol: unsupported swizzle"
  const Newvector2UnsupportedSources: string := "NEWVECTOR2: unsupported sources"
  const Newvector4UnsupportedSources: string := "NEWVECTOR4: unsupported sources"
  const KeyAllocatedTwice: string := "key allocated twice"

  /** `SHADER_TYPE` as the generator uses it (the header declares only vertex and fragment; the
    * .cpp also uses a compute type). */
  datatype ShaderType = VertexShader | FragmentShader | ComputeShader

  /** `MapSemanticToLocation`: a position attribute (only index 0) and the system colour use
    * location 0; texture coordinate i uses location 1 + i (a 32-bit sum); every other semantic
    * is a contract violation. */
  function MapSemanticToLocation(semantic: Semantic, index: u32): (r: Result<u32>)
    ensures r.Ok? <==> (semantic == Position && index == 0) || semantic == TexCoord || semantic == SystemColor
    ensures r.Ok? && semantic != TexCoord ==> r.value == 0
    ensures r.Ok? && semantic == TexCoord ==> r.value == ToU32(1 + index)
  {
    match semantic
    case Position => if index == 0 then Ok(0) else Err(MapSemanticToLocationPositionIndexMustBe0)
    case TexCoord => Ok(ToU32(1 + index))
    case SystemColor => Ok(0)
    case _ => Err(MapSemanticToLocationUnsupportedSemantic)
  }

  /** Distinct texture coordinates get distinct locations, and none of them shares location 0
    * with the position attribute unless its index is 0xFFFFFFFF, where 1 + index wraps. */
  lemma TexCoordLocations(i: u32, j: u32)
    ensures i != j ==> MapSemanticToLocation(TexCoord, i) != MapSemanticToLocation(TexCoord, j)
    ensures MapSemanticToLocation(TexCoord, i).value == MapSemanticToLocation(Position, 0).value <==> i == 0xFFFF_FFFF
  {
    if i != j {
      assert ToU32(1 + i) != ToU32(1 + j) by {
        if i < 0xFFFF_FFFF && j < 0xFFFF_FFFF {
        } else if i == 0xFFFF_FFFF {
          assert ToU32(1 + i) == 0;
        } else {
          assert ToU32(1 + j) == 0;
        }
      }
    }
  }

  // ----- vector shuffles -----

  /** `OpVectorShuffle` of two four-lane vectors: component c selects lane c of the first vector
    * when c < 4 and lane c - 4 of the second otherwise. */
  function Shuffle<T>(a: seq<T>, b: seq<T>, comps: seq<nat>): (r: seq<T>)
    requires |a| == 4 && |b| == 4
    requires forall k :: 0 <= k < |comps| ==> comps[k] < 8
    ensures |r| == |comps|
    ensures forall k :: 0 <= k < |comps| ==> r[k] == if comps[k] < 4 then a[comps[k]] else b[comps[k] - 4]
  {
    seq(|comps|, k requires 0 <= k < |comps| => if comps[k] < 4 then a[comps[k]] else b[comps[k] - 4])
  }

  /** The lanes `lanes` of vector `v`, in order: what a swizzle reads. */
  function Pick<T>(v: seq<T>, lanes: seq<nat>): (r: seq<T>)
    requires forall k :: 0 <= k < |lanes| ==> lanes[k] < |v|
    ensures |r| == |lanes| && forall k :: 0 <= k < |lanes| ==> r[k] == v[lanes[k]]
  {
    seq(|lanes|, k requires 0 <= k < |lanes| => v[lanes[k]])
  }

  /** The components of the shuffle `LoadFromSymbol` writes after loading a Float4 symbol read
    * through a non-identity swizzle: Y, Z, W and WW are supported, any other is a contract
    * violation. The components start with the swizzle's own lanes. */
  function ShuffleComponents(sw: Swizzle): (r: Result<seq<nat>>)
    ensures r.Ok? <==> sw in {Y, Z, W, WW}
    ensures r.Ok? ==> |r.value| == 4 && forall k :: 0 <= k < 4 ==> r.value[k] < 4
    ensures r.Ok? ==> r.value[..|Lanes(sw)|] == Lanes(sw)
  {
    match sw
    case Y => Ok([1, 0, 0, 0])
    case Z => Ok([2, 0, 0, 0])
    case W => Ok([3, 0, 0, 0])
    case WW => Ok([3, 3, 0, 0])
    case _ => Err(LoadFromSymbolUnsupportedSwizzle)
  }

  /** Shuffling a loaded vector with itself by `ShuffleComponents` puts the lanes the swizzle
    * reads first. */
  lemma SwizzledLoadReadsLanes<T>(v: seq<T>, sw: Swizzle)
    requires |v| == 4 && ShuffleComponents(sw).Ok?
    ensures Shuffle(v, v, ShuffleComponents(sw).value)[..|Lanes(sw)|] == Pick(v, Lanes(sw))
  {
    var c := ShuffleComponents(sw).value;
    var r := Shuffle(v, v, c);
    forall k | 0 <= k < |Lanes(sw)|
      ensures r[k] == v[Lanes(sw)[k]]
    {
      assert c[k] == c[..|Lanes(sw)|][k];
    }
  }

  /** The shuffles NEWVECTOR2 and NEWVECTOR4 lowering writes, given the swizzles of the sources in
    * use: (X, X) into two lanes, (XYZ, X) or (X, XYZ) into four, or four X sources combined
    * pairwise and then together. Any other combination is a contract violation. */
  function NewVectorShuffles(op: Op, swizzles: seq<Swizzle>): (r: Result<seq<seq<nat>>>)
    requires op == NewVector2 || op == NewVector4
    ensures r.Ok? <==>
      || (op == NewVector2 && swizzles == [X, X])
      || (op == NewVector4 && swizzles in {[XYZ, X], [X, XYZ], [X, X, X, X]})
    ensures r.Ok? ==> |r.value| == (if |swizzles| == 4 then 3 else 1)
    ensures r.Ok? ==> forall k :: 0 <= k < |r.value| ==> |r.value[k]| == 4 && forall j :: 0 <= j < 4 ==> r.value[k][j] < 8
  {
    if op == NewVector2 then
      if swizzles == [X, X] then Ok([[0, 4, 0, 0]]) else Err(Newvector2UnsupportedSources)
    else if swizzles == [XYZ, X] then Ok([[0, 1, 2, 4]])
    else if swizzles == [X, XYZ] then Ok([[0, 4, 5, 6]])
    else if swizzles == [X, X, X, X] then Ok([[0, 4, 0, 0], [0, 4, 0, 0], [0, 1, 4, 5]])
    else Err(Newvector4UnsupportedSources)
  }

  /** With two sources, the single shuffle lays the lanes each source's swizzle reads side by
    * side: the vector built is the concatenation of the sources. */
  lemma NewVectorConcatenatesTwo<T>(op: Op, sw1: Swizzle, sw2: Swizzle, v1: seq<T>, v2: seq<T>)
    requires op == NewVector2 || op == NewVector4
    requires NewVectorShuffles(op, [sw1, sw2]).Ok?
    requires |v1| == 4 && |v2| == 4
    ensures var plan := NewVectorShuffles(op, [sw1, sw2]).value;
      |plan| == 1 &&
      Shuffle(v1, v2, plan[0])[..|Lanes(sw1)| + |Lanes(sw2)|] == Pick(v1, Lanes(sw1)) + Pick(v2, Lanes(sw2))
  {
    var plan := NewVectorShuffles(op, [sw1, sw2]).value;
    var n := |Lanes(sw1)| + |Lanes(sw2)|;
    var lhs := Shuffle(v1, v2, plan[0])[..n];
    var rhs := Pick(v1, Lanes(sw1)) + Pick(v2, Lanes(sw2));
    assert |lhs| == |rhs|;
    forall k | 0 <= k < n
      ensures lhs[k] == rhs[k]
    {
    }
  }

  /** With four X sources, the two pairwise shuffles and the final one give the first lane of each
    * source, in source order. */
  lemma NewVectorConcatenatesFour<T>(v1: seq<T>, v2: seq<T>, v3: seq<T>, v4: seq<T>)
    requires |v1| == 4 && |v2| == 4 && |v3| == 4 && |v4| == 4
    ensures var plan := NewVectorShuffles(NewVector4, [X, X, X, X]).value;
      Shuffle(Shuffle(v1, v2, plan[0]), Shuffle(v3, v4, plan[1]), plan[2]) == [v1[0], v2[0], v3[0], v4[0]]
  {
    var plan := NewVectorShuffles(NewVector4, [X, X, X, X]).value;
    var a := Shuffle(v1, v2, plan[0]);
    var b := Shuffle(v3, v4, plan[1]);
    assert a[0] == v1[0] && a[1] == v2[0];
    assert b[0] == v3[0] && b[1] == v4[0];
  }

  // ----- uniform blocks -----

  /** What the generator keeps per uniform unit (`m_structInfos`): the member types, whether the
    * block is a buffer block, its ids, the member counter and offset accumulator, and the member
    * index each uniform symbol received. A default value is what `operator[]` inserts. */
  datatype StructInfo = StructInfo(
    components: seq<Word> := [],
    isBufferBlock: bool := false,
    typeId: u32 := 0,
    pointerTypeId: u32 := 0,
    variableId: u32 := 0,
    memberIndex: u32 := 0,
    currentOffset: u32 := 0,
    memberIndices: map<u32, u32> := map[])

  predicate InUnit(s: Symbol, u: u32)
  {
    s.location == Uniform && s.unit == u
  }

  /** The uniform types a block can hold. */
  predicate IsMemberType(t: SymbolType)
  {
    t == Float4 || t == Matrix || t == ArrayUint
  }

  /** The space a member takes (std430): 16 bytes for a Float4, 64 for a Matrix, none for the
    * runtime array, which must come last. */
  function MemberSize(t: SymbolType): nat
  {
    match t
    case Float4 => 16
    case Matrix => 64
    case _ => 0
  }

  /** The number of members unit `u` has among `syms`. */
  function MemberCount(syms: seq<Symbol>, u: u32): nat
  {
    if syms == [] then 0
    else MemberCount(syms[..|syms| - 1], u) + (if InUnit(syms[|syms| - 1], u) then 1 else 0)
  }

  /** The bytes the members of unit `u` among `syms` take. */
  function UnitSize(syms: seq<Symbol>, u: u32): nat
  {
    if syms == [] then 0
    else UnitSize(syms[..|syms| - 1], u) + (if InUnit(syms[|syms| - 1], u) then MemberSize(syms[|syms| - 1].ty) else 0)
  }

  /** Member i of a unit: its index is the number of members of its unit declared before it and
    * its offset the size they take, both as the 32-bit accumulators hold them. */
  function MemberIndexAt(syms: seq<Symbol>, i: nat): u32
    requires i < |syms|
  {
    ToU32(MemberCount(syms[..i], syms[i].unit))
  }

  function MemberOffsetAt(syms: seq<Symbol>, i: nat): u32
    requires i < |syms|
  {
    ToU32(UnitSize(syms[..i], syms[i].unit))
  }

  /** Consecutive members of a unit: the later one's index is one more than the earlier one's,
    * and its offset is the earlier one's offset plus the earlier one's size. */
  lemma {:induction false} NextMember(syms: seq<Symbol>, u: u32, i: nat, j: nat)
    requires i < j <= |syms| && InUnit(syms[i], u)
    requires forall k :: i < k < j ==> !InUnit(syms[k], u)
    ensures MemberCount(syms[..j], u) == MemberCount(syms[..i], u) + 1
    ensures UnitSize(syms[..j], u) == UnitSize(syms[..i], u) + MemberSize(syms[i].ty)
  {
    if j == i + 1 {
      assert syms[..j][..|syms[..j]| - 1] == syms[..i];
    } else {
      NextMember(syms, u, i, j - 1);
      assert syms[..j][..|syms[..j]| - 1] == syms[..j - 1];
    }
  }

  /** The first member of a unit has index 0 and offset 0. */
  lemma {:induction false} FirstMember(syms: seq<Symbol>, u: u32, j: nat)
    requires j <= |syms|
    requires forall k :: 0 <= k < j ==> !InUnit(syms[k], u)
    ensures MemberCount(syms[..j], u) == 0 && UnitSize(syms[..j], u) == 0
  {
    if j > 0 {
      FirstMember(syms, u, j - 1);
      assert syms[..j][..|syms[..j]| - 1] == syms[..j - 1];
    }
  }

  /** The member decorations written for uniform `s` given its block's type id, member index and
    * offset: its Offset and, for a matrix, ColMajor and a MatrixStride of 16. */
  function MemberDecorations(typeId: u32, memberIndex: u32, offset: u32, t: SymbolType): (r: seq<Instruction>)
    ensures |r| == (if t == Matrix then 3 else 1)
    ensures r[0] == Instruction(OpMemberDecorate, [typeId, memberIndex, DecorationOffset, offset])
    ensures forall k :: 0 <= k < |r| ==> r[k].opcode == OpMemberDecorate && |r[k].operands| >= 2 && r[k].operands[..2] == [typeId, memberIndex]
  {
    [Instruction(OpMemberDecorate, [typeId, memberIndex, DecorationOffset, offset])]
    + (if t == Matrix then
         [Instruction(OpMemberDecorate, [typeId, memberIndex, DecorationColMajor]),
          Instruction(OpMemberDecorate, [typeId, memberIndex, DecorationMatrixStride, 16])]
       else [])
  }

  /** The block-level decorations of one unit: BufferBlock when it holds a runtime array, Block
    * otherwise, and, except for the push-constant block, descriptor set 0 and binding = unit. */
  function BlockDecorations(unit: u32, info: StructInfo): (r: seq<Instruction>)
    ensures |r| == (if unit == PushConstantUnit then 1 else 3)
    ensures r[0] == Instruction(OpDecorate, [info.typeId, if info.isBufferBlock then DecorationBufferBlock else DecorationBlock])
    ensures unit != PushConstantUnit ==> r[1..] == [
      Instruction(OpDecorate, [info.variableId, DecorationDescriptorSet, 0]),
      Instruction(OpDecorate, [info.variableId, DecorationBinding, unit])]
  {
    [Instruction(OpDecorate, [info.typeId, if info.isBufferBlock then DecorationBufferBlock else DecorationBlock])]
    + (if unit != PushConstantUnit then
         [Instruction(OpDecorate, [info.variableId, DecorationDescriptorSet, 0]),
          Instruction(OpDecorate, [info.variableId, DecorationBinding, unit])]
       else [])
  }

  // ----- map iteration order -----

  predicate StrictlyIncreasing(ks: seq<u32>)
  {
    forall i, j :: 0 <= i < j < |ks| ==> ks[i] < ks[j]
  }

  predicate IsLeast(m: u32, s: set<u32>)
  {
    m in s && forall x :: x in s ==> m <= x
  }

  lemma LeastOfInsert(x: u32, rest: set<u32>, m: u32)
    requires IsLeast(m, rest)
    ensures IsLeast(if x < m then x else m, rest + {x})
  {
  }

  lemma {:induction false} MinExists(s: set<u32>)
    requires s != {}
    ensures exists m :: IsLeast(m, s)
    decreases |s|
  {
    var x :| x in s;
    var rest := s - {x};
    assert s == rest + {x};
    if rest == {} {
      assert IsLeast(x, s);
    } else {
      MinExists(rest);
      var m :| IsLeast(m, rest);
      LeastOfInsert(x, rest, m);
    }
  }

  /** The least element of a non-empty set of words. */
  function Least(s: set<u32>): (m: u32)
    requires s != {}
    ensures m in s && forall x :: x in s ==> m <= x
  {
    MinExists(s);
    var m :| IsLeast(m, s);
    m
  }

  /** The keys of a `std::map` in the order a range-for visits them: ascending. */
  function Ascending(s: set<u32>): (ks: seq<u32>)
    ensures |ks| == |s|
    decreases |s|
  {
    if s == {} then []
    else
      var m := Least(s);
      [m] + Ascending(s - {m})
  }

  /** Every key is visited once, in increasing order. */
  lemma {:induction false} AscendingSpec(s: set<u32>)
    ensures StrictlyIncreasing(Ascending(s))
    ensures forall k :: k in Ascending(s) <==> k in s
    decreases |s|
  {
    if s != {} {
      var m := Least(s);
      var rest := Ascending(s - {m});
      AscendingSpec(s - {m});
      var ks := Ascending(s);
      assert ks == [m] + rest;
      forall i, j | 0 <= i < j < |ks|
        ensures ks[i] < ks[j]
      {
        assert ks[j] == rest[j - 1] && rest[j - 1] in s - {m};
        if 0 < i {
          assert ks[i] == rest[i - 1];
        }
      }
      forall k
        ensures k in ks <==> k in s
      {
        assert k in ks <==> k == m || k in rest;
      }
    }
  }

  /** The values of a `std::map<uint32, uint32>` in iteration order. */
  function ValuesByKey(m: map<u32, u32>): seq<u32>
  {
    var ks := Ascending(m.Keys);
    seq(|ks|, i requires 0 <= i < |ks| => if ks[i] in m then m[ks[i]] else 0)
  }

  /** Iterating a map visits the value of every key once, in ascending key order. */
  lemma ValuesByKeyMembers(m: map<u32, u32>)
    ensures var vs := ValuesByKey(m);
      && |vs| == |m.Keys|
      && (forall v :: v in vs <==> v in m.Values)
      && StrictlyIncreasing(Ascending(m.Keys))
      && forall i :: 0 <= i < |vs| ==> Ascending(m.Keys)[i] in m && vs[i] == m[Ascending(m.Keys)[i]]
  {
    var ks := Ascending(m.Keys);
    AscendingSpec(m.Keys);
    var vs := ValuesByKey(m);
    assert forall i :: 0 <= i < |ks| ==> vs[i] == m[ks[i]];
    forall v | v in m.Values
      ensures v in vs
    {
      var k :| k in m && m[k] == v;
      var i :| 0 <= i < |ks| && ks[i] == k;
      assert vs[i] == v;
    }
  }

  // ----- pointer tables -----

  /** Which field of a symbol keys a pointer table. */
  datatype KeyField = ByIndex | ByUnit

  function KeyOf(s: Symbol, key: KeyField): u32
  {
    if key == ByIndex then s.index else s.unit
  }

  /** No two symbols of location `loc` share a key. */
  predicate DistinctKeys(syms: seq<Symbol>, loc: Location, key: KeyField)
  {
    forall i, j :: 0 <= i < j < |syms| && syms[i].location == loc && syms[j].location == loc ==> KeyOf(syms[i], key) != KeyOf(syms[j], key)
  }

  /** The keys of the symbols of location `loc`. */
  function KeySet(syms: seq<Symbol>, loc: Location, key: KeyField): set<u32>
  {
    set i | 0 <= i < |syms| && syms[i].location == loc :: KeyOf(syms[i], key)
  }

  /** One more symbol adds its key, if it has location `loc`. */
  lemma KeySetSnoc(syms: seq<Symbol>, loc: Location, key: KeyField, i: nat)
    requires i < |syms|
    ensures KeySet(syms[..i + 1], loc, key) ==
      KeySet(syms[..i], loc, key) + (if syms[i].location == loc then {KeyOf(syms[i], key)} else {})
  {
    var a, b := syms[..i + 1], syms[..i];
    forall x | x in KeySet(a, loc, key)
      ensures x in KeySet(b, loc, key) + (if syms[i].location == loc then {KeyOf(syms[i], key)} else {})
    {
      var j :| 0 <= j < |a| && a[j].location == loc && KeyOf(a[j], key) == x;
      if j < i {
        assert b[j] == a[j];
      }
    }
    forall x | x in KeySet(b, loc, key)
      ensures x in KeySet(a, loc, key)
    {
      var j :| 0 <= j < |b| && b[j].location == loc && KeyOf(b[j], key) == x;
      assert a[j] == b[j];
    }
    if syms[i].location == loc {
      assert a[i] == syms[i];
    }
  }

  /** The keys stay distinct with one more symbol exactly when its key is new. */
  lemma DistinctKeysSnoc(syms: seq<Symbol>, loc: Location, key: KeyField, i: nat)
    requires i < |syms|
    ensures DistinctKeys(syms[..i + 1], loc, key) <==>
      DistinctKeys(syms[..i], loc, key) && (syms[i].location == loc ==> KeyOf(syms[i], key) !in KeySet(syms[..i], loc, key))
  {
    if DistinctKeys(syms[..i + 1], loc, key) {
      DistinctKeysShrink(syms, loc, key, i);
    }
    if DistinctKeys(syms[..i], loc, key) && (syms[i].location == loc ==> KeyOf(syms[i], key) !in KeySet(syms[..i], loc, key)) {
      DistinctKeysGrow(syms, loc, key, i);
    }
  }

  lemma DistinctKeysShrink(syms: seq<Symbol>, loc: Location, key: KeyField, i: nat)
    requires i < |syms| && DistinctKeys(syms[..i + 1], loc, key)
    ensures DistinctKeys(syms[..i], loc, key)
    ensures syms[i].location == loc ==> KeyOf(syms[i], key) !in KeySet(syms[..i], loc, key)
  {
    var a, b := syms[..i + 1], syms[..i];
    forall j, k | 0 <= j < k < |b| && b[j].location == loc && b[k].location == loc
      ensures KeyOf(b[j], key) != KeyOf(b[k], key)
    {
      assert a[j] == b[j] && a[k] == b[k];
    }
    if syms[i].location == loc {
      forall j | 0 <= j < |b| && b[j].location == loc
        ensures KeyOf(b[j], key) != KeyOf(syms[i], key)
      {
        assert a[j] == b[j] && a[i] == syms[i];
      }
    }
  }

  lemma DistinctKeysGrow(syms: seq<Symbol>, loc: Location, key: KeyField, i: nat)
    requires i < |syms| && DistinctKeys(syms[..i], loc, key)
    requires syms[i].location == loc ==> KeyOf(syms[i], key) !in KeySet(syms[..i], loc, key)
    ensures DistinctKeys(syms[..i + 1], loc, key)
  {
    var a, b := syms[..i + 1], syms[..i];
    forall j, k | 0 <= j < k < |a| && a[j].location == loc && a[k].location == loc
      ensures KeyOf(a[j], key) != KeyOf(a[k], key)
    {
      assert a[j] == syms[j] && a[k] == syms[k];
      if k < i {
        assert b[j] == a[j] && b[k] == a[k];
      } else {
        assert b[j] == a[j];
        assert KeyOf(b[j], key) in KeySet(b, loc, key);
      }
    }
  }

  /** Keys distinct in a sequence are distinct in each of its prefixes. */
  lemma DistinctKeysPrefix(syms: seq<Symbol>, loc: Location, key: KeyField, n: nat)
    requires n <= |syms| && DistinctKeys(syms, loc, key)
    ensures DistinctKeys(syms[..n], loc, key)
  {
    var b := syms[..n];
    forall j, k | 0 <= j < k < |b| && b[j].location == loc && b[k].location == loc
      ensures KeyOf(b[j], key) != KeyOf(b[k], key)
    {
      assert b[j] == syms[j] && b[k] == syms[k];
    }
  }

  /** The scan an allocation pass makes over the first n symbols: the keys given an id so far, or
    * the failure at a key met twice. */
  function KeyScan(syms: seq<Symbol>, loc: Location, key: KeyField, n: nat): Result<set<u32>>
    requires n <= |syms|
    decreases n
  {
    if n == 0 then Ok({})
    else
      var prev := KeyScan(syms, loc, key, n - 1);
      var s := syms[n - 1];
      if prev.Err? || s.location != loc then prev
      else if KeyOf(s, key) in prev.value then Err(KeyAllocatedTwice)
      else Ok(prev.value + {KeyOf(s, key)})
  }

  /** The scan of no symbol finds no key. */
  lemma KeyScanNone(syms: seq<Symbol>, loc: Location, key: KeyField)
    ensures KeyScan(syms, loc, key, 0) == Ok({})
  {
  }

  /** The scan succeeds exactly when the keys are distinct, and then yields all of them. */
  lemma {:induction false} KeyScanMeaning(syms: seq<Symbol>, loc: Location, key: KeyField, n: nat)
    requires n <= |syms|
    ensures KeyScan(syms, loc, key, n).Ok? <==> DistinctKeys(syms[..n], loc, key)
    ensures KeyScan(syms, loc, key, n).Ok? ==> KeyScan(syms, loc, key, n).value == KeySet(syms[..n], loc, key)
  {
    if n == 0 {
      assert KeySet(syms[..0], loc, key) == {};
    } else {
      KeyScanMeaning(syms, loc, key, n - 1);
      KeySetSnoc(syms, loc, key, n - 1);
      DistinctKeysSnoc(syms, loc, key, n - 1);
    }
  }

  /** A failed scan stays failed. */
  lemma {:induction false} KeyScanFails(syms: seq<Symbol>, loc: Location, key: KeyField, m: nat, n: nat)
    requires m <= n <= |syms| && KeyScan(syms, loc, key, m).Err?
    ensures KeyScan(syms, loc, key, n).Err?
    decreases n
  {
    if m < n {
      KeyScanFails(syms, loc, key, m, n - 1);
    }
  }

  /** The program declares at least two textures or images. */
  predicate TwoTextures(p: Program)
  {
    exists i, j :: 0 <= i < j < |p.symbols| && p.symbols[i].location == Texture && p.symbols[j].location == Texture
  }

  /** In every program the builder makes, two textures share index 0xFFFFFFFF, so a table keyed by
    * texture index cannot hold them both. */
  lemma TexturesShareIndex(p: Program, i: nat, j: nat)
    requires WellFormed(p) && i < j < |p.symbols|
    requires p.symbols[i].location == Texture && p.symbols[j].location == Texture
    ensures p.symbols[i].index == p.symbols[j].index == NoIndex
    ensures !DistinctKeys(p.symbols, Texture, ByIndex)
  {
  }

  /** A table keyed by texture index cannot hold the textures of any program the builder makes
    * with two of them. */
  lemma TwoTexturesShareIndex(p: Program)
    requires WellFormed(p) && TwoTextures(p)
    ensures !DistinctKeys(p.symbols, Texture, ByIndex)
  {
    var i, j :| 0 <= i < j < |p.symbols| && p.symbols[i].location == Texture && p.symbols[j].location == Texture;
    TexturesShareIndex(p, i, j);
  }
}

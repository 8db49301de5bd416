/** The uniform blocks of the SPIR-V generator (src/generators/SpirvShaderGenerator.cpp,
  * `AllocateUniformStructsIds` and `DecorateUniformStructIds`): the state `m_structInfos` holds
  * after each of their loops, as functions of the program, and what that state means. */
module SpirvBlocks {
  import opened Wrappers
  import opened Ir
  import opened ShaderProgram
  import opened SpirvSupport
  import opened SpirvPasses

  // ----- failure messages (the source asserts; the model stops with one of these) -----

  const AllocateUniformStructsIdsUnsupportedUniformType: string := "AllocateUniformStructsIds: unsupported uniform type"

  // ----- member types -----

  /** `AllocateUniformStructsIds`, first loop, the switch on a uniform's type: the block gets
    * the member's type as its next component, a runtime array making it a buffer block; other
    * uniform types are a contract violation. */
  function AppendComponent(t: TypeIds, info: StructInfo, ty: SymbolType): (r: Result<StructInfo>)
    ensures r.Ok? <==> IsMemberType(ty)
    ensures r.Ok? ==> |r.value.components| == |info.components| + 1
    ensures r.Ok? ==> r.value.isBufferBlock == (info.isBufferBlock || ty == ArrayUint)
    ensures r.Ok? ==> r.value.(components := [], isBufferBlock := false) == info.(components := [], isBufferBlock := false)
  {
    match ty
    case Float4 => Ok(info.(components := info.components + [t.float4Type]))
    case Matrix => Ok(info.(components := info.components + [t.matrix44Type]))
    case ArrayUint => Ok(info.(components := info.components + [t.uintArrayType], isBufferBlock := true))
    case _ => Err(AllocateUniformStructsIdsUnsupportedUniformType)
  }

  /** The first loop, one symbol: a uniform adds its component to its unit's block. */
  function AddComponent(t: TypeIds, infos: map<u32, StructInfo>, s: Symbol): Result<map<u32, StructInfo>>
  {
    if s.location != Uniform then Ok(infos)
    else
      match AppendComponent(t, InfoOf(infos, s.unit), s.ty)
      case Err(e) => Err(e)
      case Ok(next) => Ok(infos[s.unit := next])
  }

  /** The blocks after the first loop has seen the first n symbols. */
  function BlockLayouts(p: Program, t: TypeIds, n: nat): Result<map<u32, StructInfo>>
    requires n <= |p.symbols|
    decreases n
  {
    if n == 0 then Ok(map[])
    else
      match BlockLayouts(p, t, n - 1)
      case Err(e) => Err(e)
      case Ok(infos) => AddComponent(t, infos, p.symbols[n - 1])
  }

  /** A uniform of unit u that is a runtime array, among the first n symbols. */
  predicate HasArrayMember(syms: seq<Symbol>, u: u32, n: nat)
    requires n <= |syms|
  {
    exists i :: 0 <= i < n && InUnit(syms[i], u) && syms[i].ty == ArrayUint
  }

  /** A block that no pass after the first loop has touched yet: no ids, counters at zero. */
  predicate Unstarted(info: StructInfo)
  {
    info.typeId == 0 && info.pointerTypeId == 0 && info.variableId == 0
    && info.memberIndex == 0 && info.currentOffset == 0 && info.memberIndices == map[]
  }

  lemma MemberCountSnoc(syms: seq<Symbol>, u: u32, n: nat)
    requires 0 < n <= |syms|
    ensures MemberCount(syms[..n], u) == MemberCount(syms[..n - 1], u) + (if InUnit(syms[n - 1], u) then 1 else 0)
    ensures UnitSize(syms[..n], u) == UnitSize(syms[..n - 1], u) + (if InUnit(syms[n - 1], u) then MemberSize(syms[n - 1].ty) else 0)
  {
    assert syms[..n][..n - 1] == syms[..n - 1];
  }

  /** The first loop completes exactly when every uniform has a member type. */
  lemma {:induction false} BlockLayoutsOk(p: Program, t: TypeIds, n: nat)
    requires n <= |p.symbols|
    ensures BlockLayouts(p, t, n).Ok? <==> forall i :: 0 <= i < n && p.symbols[i].location == Uniform ==> IsMemberType(p.symbols[i].ty)
    decreases n
  {
    if n > 0 {
      BlockLayoutsOk(p, t, n - 1);
    }
  }

  /** One symbol of the first loop, seen from unit u: a uniform of u adds one component, and
    * nothing else of u's block changes but the buffer-block flag. */
  lemma AddComponentToUnit(t: TypeIds, infos: map<u32, StructInfo>, s: Symbol, u: u32)
    requires AddComponent(t, infos, s).Ok?
    ensures var r := AddComponent(t, infos, s).value;
      && (u in r <==> u in infos || InUnit(s, u))
      && (u in r ==> |r[u].components| == |InfoOf(infos, u).components| + (if InUnit(s, u) then 1 else 0))
      && (u in r ==> r[u].(components := [], isBufferBlock := false) == InfoOf(infos, u).(components := [], isBufferBlock := false))
  {
  }

  /** Then there is a block for exactly the units that have a member, with one component per
    * member, and not yet started. */
  lemma {:induction false} BlockLayoutOfUnit(p: Program, t: TypeIds, n: nat, u: u32)
    requires n <= |p.symbols| && BlockLayouts(p, t, n).Ok?
    ensures u in BlockLayouts(p, t, n).value <==> MemberCount(p.symbols[..n], u) > 0
    ensures u in BlockLayouts(p, t, n).value ==>
      && |BlockLayouts(p, t, n).value[u].components| == MemberCount(p.symbols[..n], u)
      && Unstarted(BlockLayouts(p, t, n).value[u])
    decreases n
  {
    if n == 0 {
      assert p.symbols[..0] == [];
    } else {
      BlockLayoutOfUnit(p, t, n - 1, u);
      MemberCountSnoc(p.symbols, u, n);
      AddComponentToUnit(t, BlockLayouts(p, t, n - 1).value, p.symbols[n - 1], u);
    }
  }

  /** A block is a buffer block exactly when it holds a runtime array. */
  lemma {:induction false} BlockLayoutBuffer(p: Program, t: TypeIds, n: nat, u: u32)
    requires n <= |p.symbols| && BlockLayouts(p, t, n).Ok? && u in BlockLayouts(p, t, n).value
    ensures BlockLayouts(p, t, n).value[u].isBufferBlock <==> HasArrayMember(p.symbols, u, n)
    decreases n
  {
    var s := p.symbols[n - 1];
    var prev := BlockLayouts(p, t, n - 1).value;
    var flag := HasArrayMember(p.symbols, u, n - 1);
    if u in prev {
      BlockLayoutBuffer(p, t, n - 1, u);
    } else {
      assert !InfoOf(prev, u).isBufferBlock;
      if flag {
        var i :| 0 <= i < n - 1 && InUnit(p.symbols[i], u) && p.symbols[i].ty == ArrayUint;
        BlockLayoutOfUnit(p, t, n - 1, u);
        CountedMember(p.symbols, u, n - 1, i);
      }
    }
    if HasArrayMember(p.symbols, u, n) && !(InUnit(s, u) && s.ty == ArrayUint) {
      var i :| 0 <= i < n && InUnit(p.symbols[i], u) && p.symbols[i].ty == ArrayUint;
      assert HasArrayMember(p.symbols, u, n - 1);
    }
    if flag {
      var i :| 0 <= i < n - 1 && InUnit(p.symbols[i], u) && p.symbols[i].ty == ArrayUint;
      assert HasArrayMember(p.symbols, u, n);
    }
  }

  /** A member among the first n symbols is counted. */
  lemma {:induction false} CountedMember(syms: seq<Symbol>, u: u32, n: nat, i: nat)
    requires i < n <= |syms| && InUnit(syms[i], u)
    ensures MemberCount(syms[..n], u) > 0
    decreases n
  {
    MemberCountSnoc(syms, u, n);
    if i < n - 1 {
      CountedMember(syms, u, n - 1, i);
    }
  }

  lemma {:induction false} BlockLayoutsFail(p: Program, t: TypeIds, m: nat, n: nat)
    requires m <= n <= |p.symbols| && BlockLayouts(p, t, m).Err?
    ensures BlockLayouts(p, t, n).Err?
    decreases n
  {
    if m < n {
      BlockLayoutsFail(p, t, m, n - 1);
    }
  }

  // ----- block ids -----

  /** Id j (1, 2 or 3) of the k-th block. */
  function BlockId(base: nat, k: nat, j: nat): u32
  {
    ToU32(base + 3 * k + j)
  }

  /** The k-th block with its ids: struct type, pointer type and variable. */
  function WithBlockIds(info: StructInfo, base: nat, k: nat): StructInfo
  {
    info.(typeId := BlockId(base, k, 1), pointerTypeId := BlockId(base, k, 2), variableId := BlockId(base, k, 3))
  }

  /** `AllocateUniformStructsIds`, second loop, over the first n units in map order: unit k gets
    * the three ids after `base + 3k`. */
  function AssignBlockIds(infos: map<u32, StructInfo>, units: seq<u32>, base: nat, n: nat): (r: map<u32, StructInfo>)
    requires n <= |units|
    ensures r.Keys == infos.Keys
    decreases n
  {
    if n == 0 then infos
    else
      var m := AssignBlockIds(infos, units, base, n - 1);
      var u := units[n - 1];
      if u !in m then m else m[u := WithBlockIds(m[u], base, n - 1)]
  }

  /** One more unit: the k-th unit gets its three ids. */
  lemma AssignBlockIdsStep(infos: map<u32, StructInfo>, units: seq<u32>, base: nat, k: nat)
    requires k < |units| && units[k] in infos
    ensures var m := AssignBlockIds(infos, units, base, k);
      AssignBlockIds(infos, units, base, k + 1) == m[units[k] := WithBlockIds(m[units[k]], base, k)]
  {
  }

  /** Each unit gets its own three consecutive ids, in unit order, and keeps its members. */
  lemma {:induction false} BlockIdsAssigned(infos: map<u32, StructInfo>, units: seq<u32>, base: nat, n: nat, k: nat)
    requires n <= |units| && forall j :: 0 <= j < |units| ==> units[j] in infos
    requires StrictlyIncreasing(units) && k < n
    ensures AssignBlockIds(infos, units, base, n)[units[k]] == WithBlockIds(infos[units[k]], base, k)
    decreases n
  {
    AssignBlockIdsAt(infos, units, base, n, units[k]);
    if k < n - 1 {
      BlockIdsAssigned(infos, units, base, n - 1, k);
      assert units[k] != units[n - 1];
    } else {
      BlockIdsUntouched(infos, units, base, k, units[k]);
    }
  }

  /** The entry of one unit after one more step. */
  lemma AssignBlockIdsAt(infos: map<u32, StructInfo>, units: seq<u32>, base: nat, n: nat, u: u32)
    requires 0 < n <= |units| && units[n - 1] in infos && u in infos
    ensures var m := AssignBlockIds(infos, units, base, n - 1);
      AssignBlockIds(infos, units, base, n)[u] == if u == units[n - 1] then WithBlockIds(m[u], base, n - 1) else m[u]
  {
  }

  /** A unit the loop has not reached yet is unchanged. */
  lemma {:induction false} BlockIdsUntouched(infos: map<u32, StructInfo>, units: seq<u32>, base: nat, n: nat, u: u32)
    requires n <= |units| && forall j :: 0 <= j < |units| ==> units[j] in infos
    requires u in infos && forall j :: 0 <= j < n ==> units[j] != u
    ensures AssignBlockIds(infos, units, base, n)[u] == infos[u]
    decreases n
  {
    if n > 0 {
      BlockIdsUntouched(infos, units, base, n - 1, u);
    }
  }

  /** When the counter does not wrap, no two blocks share an id. */
  lemma BlockIdsDistinct(infos: map<u32, StructInfo>, units: seq<u32>, base: nat, j: nat, k: nat)
    requires forall i :: 0 <= i < |units| ==> units[i] in infos
    requires StrictlyIncreasing(units) && j < k < |units| && base + 3 * |units| < U32_LIMIT
    ensures var m := AssignBlockIds(infos, units, base, |units|);
      var a, b := m[units[j]], m[units[k]];
      && a.variableId < b.typeId
      && a.typeId < a.pointerTypeId < a.variableId
  {
    BlockIdsAssigned(infos, units, base, |units|, j);
    BlockIdsAssigned(infos, units, base, |units|, k);
  }

  /** The k-th block in unit order holds ids base + 3k + 1 to base + 3k + 3: struct type,
    * pointer type and variable. */
  predicate BlockIdsFrom(blocks: map<u32, StructInfo>, base: nat)
  {
    forall k :: 0 <= k < |Units(blocks)| ==>
      && Units(blocks)[k] in blocks
      && blocks[Units(blocks)[k]].typeId == BlockId(base, k, 1)
      && blocks[Units(blocks)[k]].pointerTypeId == BlockId(base, k, 2)
      && blocks[Units(blocks)[k]].variableId == BlockId(base, k, 3)
  }

  /** The second loop of `AllocateUniformStructsIds` over every unit gives the blocks exactly
    * those ids. */
  lemma AssignedBlockIdsFrom(layout: map<u32, StructInfo>, base: nat)
    ensures BlockIdsFrom(AssignBlockIds(layout, Units(layout), base, |layout.Keys|), base)
  {
    hide AssignBlockIds, Ascending;
    var units := Units(layout);
    AscendingSpec(layout.Keys);
    var m := AssignBlockIds(layout, units, base, |layout.Keys|);
    assert m.Keys == layout.Keys;
    assert Units(m) == units;
    forall k | 0 <= k < |units|
      ensures units[k] in m && m[units[k]].typeId == BlockId(base, k, 1)
      ensures m[units[k]].pointerTypeId == BlockId(base, k, 2) && m[units[k]].variableId == BlockId(base, k, 3)
    {
      BlockIdsAssigned(layout, units, base, |units|, k);
    }
  }

  // ----- member indices and offsets -----

  /** `DecorateUniformStructIds`, first loop, one symbol: a uniform takes its unit's member index,
    * which is recorded under the symbol's index, and moves the unit's offset on by the member's
    * size (std430); other uniform types are a contract violation. */
  function AddMember(infos: map<u32, StructInfo>, s: Symbol): Result<map<u32, StructInfo>>
  {
    if s.location != Uniform then Ok(infos)
    else if !IsMemberType(s.ty) then Err(DecorateUniformStructIdsUnsupportedUniformType)
    else
      var info := InfoOf(infos, s.unit);
      Ok(infos[s.unit := info.(memberIndex := ToU32(info.memberIndex + 1),
                               memberIndices := info.memberIndices[s.index := info.memberIndex],
                               currentOffset := ToU32(info.currentOffset + MemberSize(s.ty)))])
  }

  /** The blocks after that loop has seen the first n symbols. */
  function MemberLayouts(p: Program, infos: map<u32, StructInfo>, n: nat): Result<map<u32, StructInfo>>
    requires n <= |p.symbols|
    decreases n
  {
    if n == 0 then Ok(infos)
    else
      match MemberLayouts(p, infos, n - 1)
      case Err(e) => Err(e)
      case Ok(m) => AddMember(m, p.symbols[n - 1])
  }

  /** Counters at zero in every block. */
  predicate CountersAtZero(infos: map<u32, StructInfo>)
  {
    forall u :: u in infos ==> infos[u].memberIndex == 0 && infos[u].currentOffset == 0
  }

  /** No block has recorded a member index yet. */
  predicate NoMemberIndices(infos: map<u32, StructInfo>)
  {
    forall u :: u in infos ==> infos[u].memberIndices == map[]
  }

  /** The blocks the first loop of `AllocateUniformStructsIds` builds start with their counters
    * at zero and no member recorded, and giving them ids keeps it so: `DecorateUniformStructIds`
    * starts every block at member 0, offset 0. */
  lemma AllocatedBlocksUnstarted(p: Program, t: TypeIds, base: nat)
    requires BlockLayouts(p, t, |p.symbols|).Ok?
    ensures var layout := BlockLayouts(p, t, |p.symbols|).value;
      var m := AssignBlockIds(layout, Units(layout), base, |layout.Keys|);
      CountersAtZero(m) && NoMemberIndices(m)
  {
    var layout := BlockLayouts(p, t, |p.symbols|).value;
    forall u | u in layout
      ensures layout[u].memberIndex == 0 && layout[u].currentOffset == 0 && layout[u].memberIndices == map[]
    {
      BlockLayoutOfUnit(p, t, |p.symbols|, u);
    }
    AssignBlockIdsKeepCounters(layout, Units(layout), base, |layout.Keys|);
  }

  lemma {:induction false} AssignBlockIdsKeepCounters(infos: map<u32, StructInfo>, units: seq<u32>, base: nat, n: nat)
    requires n <= |units| && CountersAtZero(infos) && NoMemberIndices(infos)
    ensures CountersAtZero(AssignBlockIds(infos, units, base, n)) && NoMemberIndices(AssignBlockIds(infos, units, base, n))
    decreases n
  {
    if n > 0 {
      AssignBlockIdsKeepCounters(infos, units, base, n - 1);
    }
  }

  /** One symbol of that loop, seen from unit u: a uniform of u moves the counter on by one and
    * the offset by its size; nothing else of u's block changes but the recorded indices. */
  lemma AddMemberToUnit(infos: map<u32, StructInfo>, s: Symbol, u: u32)
    requires AddMember(infos, s).Ok?
    ensures var info, next := InfoOf(infos, u), InfoOf(AddMember(infos, s).value, u);
      && next.memberIndex == ToU32(info.memberIndex + (if InUnit(s, u) then 1 else 0))
      && next.currentOffset == ToU32(info.currentOffset + (if InUnit(s, u) then MemberSize(s.ty) else 0))
      && next.(memberIndex := 0, currentOffset := 0, memberIndices := map[]) == info.(memberIndex := 0, currentOffset := 0, memberIndices := map[])
  {
  }

  /** A 32-bit accumulator that holds a total modulo 2^32 still does after adding d to both. */
  lemma CounterStep(held: int, next: int, total: int, d: int, total': int)
    requires held == ToU32(total) && next == ToU32(held + d) && total' == total + d
    ensures next == ToU32(total')
  {
    ToU32Add(total, d);
  }

  /** Starting from zero counters, each unit's member counter and offset are the number of its
    * members and the bytes they take, modulo 2^32. */
  lemma {:induction false} MemberLayoutsCount(p: Program, infos: map<u32, StructInfo>, n: nat, u: u32)
    requires n <= |p.symbols| && CountersAtZero(infos) && MemberLayouts(p, infos, n).Ok?
    ensures var info := InfoOf(MemberLayouts(p, infos, n).value, u);
      && info.memberIndex == ToU32(MemberCount(p.symbols[..n], u))
      && info.currentOffset == ToU32(UnitSize(p.symbols[..n], u))
    decreases n
  {
    hide ToU32, MemberCount, UnitSize;
    if n > 0 {
      var s := p.symbols[n - 1];
      var prev := MemberLayouts(p, infos, n - 1).value;
      var info, next := InfoOf(prev, u), InfoOf(MemberLayouts(p, infos, n).value, u);
      assert MemberLayouts(p, infos, n) == AddMember(prev, s);
      var dc, ds := (if InUnit(s, u) then 1 else 0), (if InUnit(s, u) then MemberSize(s.ty) else 0);
      MemberLayoutsCount(p, infos, n - 1, u);
      AddMemberToUnit(prev, s, u);
      MemberCountSnoc(p.symbols, u, n);
      CounterStep(info.memberIndex, next.memberIndex, MemberCount(p.symbols[..n - 1], u), dc, MemberCount(p.symbols[..n], u));
      CounterStep(info.currentOffset, next.currentOffset, UnitSize(p.symbols[..n - 1], u), ds, UnitSize(p.symbols[..n], u));
    } else {
      assert p.symbols[..0] == [];
      NoMembers(u);
    }
  }

  /** No symbol: no member and no bytes. */
  lemma NoMembers(u: u32)
    ensures MemberCount([], u) == 0 && UnitSize([], u) == 0
  {
  }

  /** That loop changes nothing in a block but its counters and recorded indices. */
  lemma {:induction false} MemberLayoutsKeep(p: Program, infos: map<u32, StructInfo>, n: nat, u: u32)
    requires n <= |p.symbols| && MemberLayouts(p, infos, n).Ok?
    ensures InfoOf(MemberLayouts(p, infos, n).value, u).(memberIndex := 0, currentOffset := 0, memberIndices := map[]) ==
      InfoOf(infos, u).(memberIndex := 0, currentOffset := 0, memberIndices := map[])
    decreases n
  {
    if n > 0 {
      MemberLayoutsKeep(p, infos, n - 1, u);
      AddMemberToUnit(MemberLayouts(p, infos, n - 1).value, p.symbols[n - 1], u);
    }
  }

  /** Each uniform's member index is recorded under its symbol index, unless a later uniform of
    * the same unit has the same index: its index in declaration order within its unit. */
  lemma {:induction false} MemberIndexRecorded(p: Program, infos: map<u32, StructInfo>, n: nat, j: nat)
    requires j < n <= |p.symbols| && CountersAtZero(infos) && MemberLayouts(p, infos, n).Ok?
    requires p.symbols[j].location == Uniform
    requires forall k :: j < k < n ==> !(InUnit(p.symbols[k], p.symbols[j].unit) && p.symbols[k].index == p.symbols[j].index)
    ensures var info := InfoOf(MemberLayouts(p, infos, n).value, p.symbols[j].unit);
      p.symbols[j].index in info.memberIndices && info.memberIndices[p.symbols[j].index] == MemberIndexAt(p.symbols, j)
    decreases n
  {
    if n == j + 1 {
      MemberLayoutsCount(p, infos, j, p.symbols[j].unit);
    } else {
      MemberIndexRecorded(p, infos, n - 1, j);
    }
  }

  /** The loop completes exactly when every uniform has a member type. */
  lemma {:induction false} MemberLayoutsOk(p: Program, infos: map<u32, StructInfo>, n: nat)
    requires n <= |p.symbols|
    ensures MemberLayouts(p, infos, n).Ok? <==> forall i :: 0 <= i < n && p.symbols[i].location == Uniform ==> IsMemberType(p.symbols[i].ty)
    decreases n
  {
    if n > 0 {
      MemberLayoutsOk(p, infos, n - 1);
    }
  }

  lemma {:induction false} MemberLayoutsFail(p: Program, infos: map<u32, StructInfo>, m: nat, n: nat)
    requires m <= n <= |p.symbols| && MemberLayouts(p, infos, m).Err?
    ensures MemberLayouts(p, infos, n).Err?
    decreases n
  {
    if m < n {
      MemberLayoutsFail(p, infos, m, n - 1);
    }
  }

  /** Every member index recorded in a block has an int constant. */
  predicate MemberIndicesRegistered(infos: map<u32, StructInfo>, ints: map<u32, u32>)
  {
    forall u, k :: u in infos && k in infos[u].memberIndices ==> infos[u].memberIndices[k] in ints
  }
}

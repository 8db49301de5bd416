/** The word encoding the generators write (include/nuanceur/generators/SpirvShaderGenerator.h):
  * instructions (section 2.3 of the Khronos SPIR-V Specification), operand conversion and literal
  * strings (section 2.2.1). */
module SpirvEncoding {
  import opened Wrappers
  import opened Ir
  import opened Spv

  type Word = u32
  type byte = x: int | 0 <= x < 0x100

  /** An instruction: its opcode and its operand words. */
  datatype Instruction = Instruction(opcode: Opcode, operands: seq<Word>)

  /** The first word of an instruction of `wordCount` words: the count shifted into the high 16
    * bits (as a 32-bit shift, so a count of 2^16 or more loses its high bits) or'ed with the
    * opcode, which fits the low 16 bits. */
  function Header(wordCount: nat, opcode: Opcode): (w: Word)
    ensures w / 0x1_0000 == wordCount % 0x1_0000
    ensures w % 0x1_0000 == opcode
  {
    (wordCount % 0x1_0000) * 0x1_0000 + opcode
  }

  /** `WriteOp`: the header word followed by the operand words. */
  function Encode(i: Instruction): (ws: seq<Word>)
    ensures |ws| == |i.operands| + 1 && ws[1..] == i.operands
    ensures ws[0] % 0x1_0000 == i.opcode
    ensures |i.operands| < 0xFFFF ==> ws[0] / 0x1_0000 == |ws|
  {
    [Header(|i.operands| + 1, i.opcode)] + i.operands
  }

  /** The `WriteOp` overload without operands writes the single word (1 << 16) | opcode, which is
    * what the general overload writes for an empty operand list. */
  lemma NoOperandWriteOp(op: Opcode)
    ensures Encode(Instruction(op, [])) == [0x1_0000 + op]
  {
  }

  /** The words of a sequence of instructions, written one after the other. */
  function EncodeAll(ins: seq<Instruction>): (ws: seq<Word>)
  {
    if ins == [] then [] else EncodeAll(ins[..|ins| - 1]) + Encode(ins[|ins| - 1])
  }

  /** Writing one more instruction appends its encoding to the stream. */
  lemma EncodeAllAppend(ins: seq<Instruction>, i: Instruction)
    ensures EncodeAll(ins + [i]) == EncodeAll(ins) + Encode(i)
  {
    assert (ins + [i])[..|ins|] == ins;
  }

  /** The words of two runs of instructions are the words of the first run, then of the second. */
  lemma {:induction false} EncodeAllConcat(a: seq<Instruction>, b: seq<Instruction>)
    ensures EncodeAll(a + b) == EncodeAll(a) + EncodeAll(b)
    decreases |b|
  {
    if b != [] {
      var n := |b| - 1;
      assert (a + b)[..|a| + n] == a + b[..n];
      EncodeAllConcat(a, b[..n]);
    } else {
      assert a + b == a;
    }
  }

  /** The first instruction's words come first. */
  lemma {:induction false} EncodeAllCons(i: Instruction, rest: seq<Instruction>)
    ensures EncodeAll([i] + rest) == Encode(i) + EncodeAll(rest)
    decreases |rest|
  {
    if rest == [] {
      assert ([i] + rest)[..0] == [];
    } else {
      var n := |rest| - 1;
      assert ([i] + rest)[..|rest|] == [i] + rest[..n];
      EncodeAllCons(i, rest[..n]);
    }
  }

  /** Every instruction's word count fits the 16 bits the header gives it. */
  predicate Encodable(ins: seq<Instruction>)
  {
    forall k :: 0 <= k < |ins| ==> |ins[k].operands| < 0xFFFF
  }

  /** A reader of the stream: splits words into instructions by the word count in each header. */
  function Decode(ws: seq<Word>): (r: Result<seq<Instruction>>)
    decreases |ws|
  {
    if ws == [] then Ok([])
    else
      var count := ws[0] / 0x1_0000;
      if count == 0 || count > |ws| then Err("invalid word count")
      else
        match Decode(ws[count..])
        case Err(e) => Err(e)
        case Ok(rest) => Ok([Instruction(ws[0] % 0x1_0000, ws[1..count])] + rest)
  }

  /** Reading back what was written gives the instructions that were written. */
  lemma {:induction false} DecodeEncodeAll(ins: seq<Instruction>)
    requires Encodable(ins)
    ensures Decode(EncodeAll(ins)) == Ok(ins)
  {
    if ins != [] {
      var ws := EncodeAll(ins);
      var e := Encode(ins[0]);
      assert ins == [ins[0]] + ins[1..];
      EncodeAllCons(ins[0], ins[1..]);
      assert ws == e + EncodeAll(ins[1..]);
      assert ws[0] / 0x1_0000 == |e|;
      assert ws[|e|..] == EncodeAll(ins[1..]);
      assert ws[1..|e|] == e[1..];
      DecodeEncodeAll(ins[1..]);
      assert [Instruction(ws[0] % 0x1_0000, ws[1..|e|])] + ins[1..] == ins;
    }
  }

  /** Conversely, every stream the reader accepts is the encoding of what it reads. */
  lemma {:induction false} EncodeAllDecode(ws: seq<Word>)
    requires Decode(ws).Ok?
    ensures Encodable(Decode(ws).value) && EncodeAll(Decode(ws).value) == ws
  {
    if ws != [] {
      var count := ws[0] / 0x1_0000;
      var i := Instruction(ws[0] % 0x1_0000, ws[1..count]);
      EncodeAllDecode(ws[count..]);
      var rest := Decode(ws[count..]).value;
      assert Decode(ws).value == [i] + rest;
      EncodeAllCons(i, rest);
      FirstInstruction(ws, count);
      EncodableCons(i, rest);
    }
  }

  /** The first `count` words, read as one instruction, encode back to themselves. */
  lemma FirstInstruction(ws: seq<Word>, count: nat)
    requires 0 < count <= |ws| && count == ws[0] / 0x1_0000
    ensures |ws[1..count]| < 0xFFFF
    ensures Encode(Instruction(ws[0] % 0x1_0000, ws[1..count])) + ws[count..] == ws
  {
    var e := Encode(Instruction(ws[0] % 0x1_0000, ws[1..count]));
    assert Header(count, ws[0] % 0x1_0000) == ws[0];
    assert e == ws[..count];
  }

  lemma EncodableCons(i: Instruction, rest: seq<Instruction>)
    requires |i.operands| < 0xFFFF && Encodable(rest)
    ensures Encodable([i] + rest)
  {
    assert forall k :: 0 < k < |rest| + 1 ==> ([i] + rest)[k] == rest[k - 1];
  }

  // ----- literal strings -----

  /** A C string: no NUL byte before the terminator. */
  predicate IsCString(s: seq<byte>)
  {
    forall k :: 0 <= k < |s| ==> s[k] != 0
  }

  /** Byte `k` of the string followed by its terminator and zero padding. */
  function ByteAt(s: seq<byte>, k: nat): byte
  {
    if k < |s| then s[k] else 0
  }

  /** Four bytes, little-endian: byte k goes to bits 8k .. 8k+7. */
  function PackWord(b0: byte, b1: byte, b2: byte, b3: byte): Word
  {
    b0 + 0x100 * b1 + 0x1_0000 * b2 + 0x100_0000 * b3
  }

  /** The four bytes of a word, least significant first. */
  function Split(w: Word): (bs: seq<byte>)
    ensures |bs| == 4
  {
    [w % 0x100, (w / 0x100) % 0x100, (w / 0x1_0000) % 0x100, w / 0x100_0000]
  }

  lemma SplitPackWord(b0: byte, b1: byte, b2: byte, b3: byte)
    ensures Split(PackWord(b0, b1, b2, b3)) == [b0, b1, b2, b3]
  {
    var w := PackWord(b0, b1, b2, b3);
    assert w / 0x100 == b1 + 0x100 * b2 + 0x1_0000 * b3;
    assert w / 0x1_0000 == b2 + 0x100 * b3;
  }

  /** The bytes of a word sequence, in stream order. */
  function Unbytes(ws: seq<Word>): (bs: seq<byte>)
    ensures |bs| == 4 * |ws|
  {
    if ws == [] then [] else Split(ws[0]) + Unbytes(ws[1..])
  }

  lemma {:induction false} UnbytesAt(ws: seq<Word>, k: nat)
    requires k < 4 * |ws|
    ensures Unbytes(ws)[k] == Split(ws[k / 4])[k % 4]
  {
    if k >= 4 {
      UnbytesAt(ws[1..], k - 4);
    }
  }

  /** The words of a literal string (section 2.2.1 of the Khronos SPIR-V Specification): the bytes,
    * the NUL terminator and zero padding, four to a word. */
  function StringWords(s: seq<byte>): (ws: seq<Word>)
    ensures |ws| == (|s| + 1 + 3) / 4
  {
    seq((|s| + 1 + 3) / 4, j requires 0 <= j => WordAt(s, j))
  }

  /** Word j of a packed string: bytes 4j to 4j + 3 of the string and its zero padding. */
  function WordAt(s: seq<byte>, j: nat): Word
  {
    PackWord(ByteAt(s, 4 * j), ByteAt(s, 4 * j + 1), ByteAt(s, 4 * j + 2), ByteAt(s, 4 * j + 3))
  }

  /** The zero bytes after the string. */
  function Zeros(n: nat): (z: seq<byte>)
    ensures |z| == n && forall k :: 0 <= k < n ==> z[k] == 0
  {
    seq(n, _ => 0)
  }

  /** Byte k of the packed words is byte k of the string, its terminator or its padding. */
  lemma StringWordsByteAt(s: seq<byte>, k: nat)
    requires k < 4 * |StringWords(s)|
    ensures Unbytes(StringWords(s))[k] == ByteAt(s, k)
  {
    var ws := StringWords(s);
    var j := k / 4;
    UnbytesAt(ws, k);
    SplitPackWord(ByteAt(s, 4 * j), ByteAt(s, 4 * j + 1), ByteAt(s, 4 * j + 2), ByteAt(s, 4 * j + 3));
    assert k == 4 * j + k % 4;
  }

  /** The words hold the string's bytes in order, then between one and four zero bytes: the
    * terminator is always present and the padding is shorter than a word. */
  lemma StringWordsBytes(s: seq<byte>)
    ensures var pad := 4 * |StringWords(s)| - |s|;
      1 <= pad <= 4 && Unbytes(StringWords(s)) == s + Zeros(pad)
  {
    var pad := 4 * |StringWords(s)| - |s|;
    var bs := Unbytes(StringWords(s));
    forall k | 0 <= k < |bs|
      ensures bs[k] == (s + Zeros(pad))[k]
    {
      StringWordsByteAt(s, k);
    }
  }

  /** The bytes before the first zero byte. */
  function UntilNul(bs: seq<byte>): (r: seq<byte>)
    ensures |r| <= |bs|
  {
    if bs == [] || bs[0] == 0 then [] else [bs[0]] + UntilNul(bs[1..])
  }

  lemma {:induction false} UntilNulOfCString(s: seq<byte>, z: seq<byte>)
    requires IsCString(s) && z != [] && z[0] == 0
    ensures UntilNul(s + z) == s
  {
    if s != [] {
      assert (s + z)[1..] == s[1..] + z;
      UntilNulOfCString(s[1..], z);
    } else {
      assert s + z == z;
    }
  }

  /** Reading a packed literal string up to its first zero byte recovers the string. */
  lemma StringRoundTrip(s: seq<byte>)
    requires IsCString(s)
    ensures UntilNul(Unbytes(StringWords(s))) == s
  {
    StringWordsBytes(s);
    UntilNulOfCString(s, Zeros(4 * |StringWords(s)| - |s|));
  }

  /** `ConvertParam(const char*)`: one word per four bytes of the string and its terminator,
    * `stringLength` counting down the bytes still to pack. Bytes are unsigned here (see
    * `SignedCharPacking` for what a signed `char` does). */
  method PackString(s: seq<byte>) returns (words: seq<Word>)
    requires IsCString(s) && |s| + 1 < U32_LIMIT
    ensures words == StringWords(s)
  {
    var stringLength: int := |s| + 1;
    var valueCount := (stringLength + 3) / 4;
    var p := 0;
    words := [];
    var i := 0;
    while i < valueCount
      invariant 0 <= i <= valueCount && p == 4 * i && stringLength == |s| + 1 - p
      invariant words == StringWords(s)[..i]
    {
      var b0, b1, b2, b3 := 0, 0, 0, 0;
      if stringLength > 0 { b0 := ByteAt(s, p); }
      if stringLength > 1 { b1 := ByteAt(s, p + 1); }
      if stringLength > 2 { b2 := ByteAt(s, p + 2); }
      if stringLength > 3 { b3 := ByteAt(s, p + 3); }
      PackStep(s, i, stringLength, words);
      words := words + [PackWord(b0, b1, b2, b3)];
      p := p + 4;
      stringLength := stringLength - 4;
      i := i + 1;
    }
  }

  /** One turn of the loop of `PackString`: the word it packs for chunk `i`, `stringLength` bytes
    * before the end, is word `i` of `StringWords` (a byte the loop skips lies in the zero padding). */
  lemma PackStep(s: seq<byte>, i: nat, stringLength: int, words: seq<Word>)
    requires i < |StringWords(s)| && stringLength == |s| + 1 - 4 * i
    requires words == StringWords(s)[..i]
    ensures words + [PackWord(ByteAt(s, 4 * i),
                              if stringLength > 1 then ByteAt(s, 4 * i + 1) else 0,
                              if stringLength > 2 then ByteAt(s, 4 * i + 2) else 0,
                              if stringLength > 3 then ByteAt(s, 4 * i + 3) else 0)]
            == StringWords(s)[..i + 1]
  {
    assert StringWords(s)[..i + 1] == StringWords(s)[..i] + [StringWords(s)[i]];
  }

  /** A signed `char` holding byte `b`, promoted to a 32-bit int before the shift: bytes from 0x80
    * up are negative and sign-extend into the upper bits. */
  function PromoteSignedChar(b: byte): (r: bv32)
    ensures b < 0x80 ==> r == b as bv32
    ensures b >= 0x80 ==> r & 0xFFFF_FF00 == 0xFFFF_FF00
  {
    if b < 0x80 then b as bv32 else (b as bv32) | 0xFFFF_FF00
  }

  /** One word of `ConvertParam(const char*)` as written, where `char` is signed: the four shifted
    * promoted characters combined with `|`, for the chunk at `p` with `stringLength` bytes left. */
  function PackWordAsWritten(s: seq<byte>, p: nat, stringLength: int): bv32
  {
    (if stringLength > 0 then PromoteSignedChar(ByteAt(s, p)) else 0)
    | (if stringLength > 1 then PromoteSignedChar(ByteAt(s, p + 1)) << 8 else 0)
    | (if stringLength > 2 then PromoteSignedChar(ByteAt(s, p + 2)) << 16 else 0)
    | (if stringLength > 3 then PromoteSignedChar(ByteAt(s, p + 3)) << 24 else 0)
  }

  /** With a signed `char`, the two-byte UTF-8 string "é" (0xC3 0xA9) packs as written into
    * 0xFFFFFFC3: the sign extension of 0xC3 overwrites the second byte and the terminator, so the
    * word no longer reads back as the string. The unsigned packing gives 0x0000A9C3. */
  lemma SignedCharPacking()
    ensures PackWordAsWritten([0xC3, 0xA9], 0, 3) == 0xFFFF_FFC3
    ensures UntilNul(Split(0xFFFF_FFC3)) != [0xC3, 0xA9]
    ensures StringWords([0xC3, 0xA9]) == [0xA9C3]
    ensures UntilNul(Unbytes(StringWords([0xC3, 0xA9]))) == [0xC3, 0xA9]
  {
    assert PromoteSignedChar(0xC3) == 0xFFFF_FFC3;
    assert PromoteSignedChar(0xA9) << 8 == 0xFFFF_A900;
    assert Split(0xFFFF_FFC3) == [0xC3, 0xFF, 0xFF, 0xFF];
    assert UntilNul(Split(0xFFFF_FFC3))[1] == 0xFF;
    StringRoundTrip([0xC3, 0xA9]);
  }

  // ----- operands -----

  /** The operand kinds `ConvertParam` accepts: integral values (ids, literal numbers), enum
    * values, strings, word vectors and floats (carried as their bit pattern). */
  datatype Param =
    | Num(n: int)
    | EnumValue(e: u32)
    | Text(s: seq<byte>)
    | Vector(v: seq<Word>)
    | FloatParam(bits: Float)

  predicate ValidParam(p: Param)
  {
    p.Text? ==> IsCString(p.s) && |p.s| + 1 < U32_LIMIT
  }

  /** `ConvertParam`: integral values become one word by `static_cast<uint32>`, enum values one
    * word, strings their packed words, vectors their words verbatim, floats their bits. */
  function ConvertParam(p: Param): (ws: seq<Word>)
    requires ValidParam(p)
    ensures p.Num? ==> ws == [ToU32(p.n)]
    ensures p.EnumValue? ==> ws == [p.e]
    ensures p.FloatParam? ==> ws == [p.bits]
    ensures p.Vector? ==> ws == p.v
    ensures p.Text? ==> |ws| == (|p.s| + 1 + 3) / 4 && UntilNul(Unbytes(ws)) == p.s
  {
    match p
    case Num(n) => [ToU32(n)]
    case EnumValue(e) => [e]
    case Text(s) => StringRoundTrip(s); StringWords(s)
    case Vector(v) => v
    case FloatParam(bits) => [bits]
  }

  predicate ValidParams(ps: seq<Param>)
  {
    forall k :: 0 <= k < |ps| ==> ValidParam(ps[k])
  }

  /** `ConvertParams`: each parameter's words, in argument order. */
  function ConvertParams(ps: seq<Param>): (ws: seq<Word>)
    requires ValidParams(ps)
  {
    if ps == [] then [] else ConvertParam(ps[0]) + ConvertParams(ps[1..])
  }

  /** Converting a parameter list is converting its parts one after the other. */
  lemma {:induction false} ConvertParamsAppend(a: seq<Param>, b: seq<Param>)
    requires ValidParams(a) && ValidParams(b)
    ensures ValidParams(a + b)
    ensures ConvertParams(a + b) == ConvertParams(a) + ConvertParams(b)
  {
    if a != [] {
      assert (a + b)[0] == a[0] && (a + b)[1..] == a[1..] + b;
      ConvertParamsAppend(a[1..], b);
    } else {
      assert a + b == b;
    }
  }

  /** A list of numbers converts to exactly one word per number. */
  lemma {:induction false} ConvertNumbers(ps: seq<Param>)
    requires forall k :: 0 <= k < |ps| ==> ps[k].Num?
    ensures ValidParams(ps)
    ensures var ws := ConvertParams(ps);
      |ws| == |ps| && forall k :: 0 <= k < |ps| ==> ws[k] == ToU32(ps[k].n)
  {
    if ps != [] {
      ConvertNumbers(ps[1..]);
    }
  }
}

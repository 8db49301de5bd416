/** Decimal text, as the text generators produce it with `string_format("%d", ...)`. The format
  * routine itself is outside the repository; the model gives it its C meaning: an `int` printed
  * in base ten with a leading '-' when negative and no leading zeros. An `unsigned` argument is
  * read back as `int`, so values from 2^31 up print negative. */
module Text {
  import opened Wrappers
  import opened Ir

  predicate IsDigit(c: char)
  {
    '0' <= c <= '9'
  }

  predicate AllDigits(s: string)
  {
    forall k :: 0 <= k < |s| ==> IsDigit(s[k])
  }

  function DigitChar(d: nat): (c: char)
    requires d < 10
    ensures IsDigit(c)
  {
    (('0' as int) + d) as char
  }

  function DigitValue(c: char): (d: nat)
    requires IsDigit(c)
    ensures d < 10 && DigitChar(d) == c
  {
    (c as int) - ('0' as int)
  }

  /** A natural number in base ten, most significant digit first, without leading zeros. */
  function NatText(n: nat): (s: string)
    ensures 1 <= |s| && AllDigits(s)
    ensures |s| > 1 ==> s[0] != '0'
  {
    if n < 10 then [DigitChar(n)] else NatText(n / 10) + [DigitChar(n % 10)]
  }

  /** Reading a non-empty digit string back as a number. */
  function ParseNat(s: string): nat
    requires 1 <= |s| && AllDigits(s)
  {
    if |s| == 1 then DigitValue(s[0]) else 10 * ParseNat(s[..|s| - 1]) + DigitValue(s[|s| - 1])
  }

  lemma {:induction false} ParseNatText(n: nat)
    ensures ParseNat(NatText(n)) == n
  {
    if n >= 10 {
      var s := NatText(n);
      assert s[..|s| - 1] == NatText(n / 10);
      ParseNatText(n / 10);
    }
  }

  /** Different numbers print differently. */
  lemma NatTextInjective(a: nat, b: nat)
    ensures NatText(a) == NatText(b) ==> a == b
  {
    ParseNatText(a);
    ParseNatText(b);
  }

  /** `%d` of an `int`. */
  function IntText(i: int): (s: string)
    ensures i >= 0 ==> s == NatText(i)
    ensures i < 0 ==> s == "-" + NatText(-i)
  {
    if i < 0 then "-" + NatText(-i) else NatText(i)
  }

  /** Reading `%d` text back: an optional '-' and a digit string. */
  function ParseInt(s: string): Option<int>
  {
    if |s| >= 2 && s[0] == '-' && AllDigits(s[1..]) then var n: int := ParseNat(s[1..]); Some(-n)
    else if |s| >= 1 && AllDigits(s) then Some(ParseNat(s))
    else None
  }

  lemma IntTextRoundTrip(i: int)
    ensures ParseInt(IntText(i)) == Some(i)
  {
    if i < 0 {
      assert IntText(i)[1..] == NatText(-i);
      ParseNatText(-i);
    } else {
      ParseNatText(i);
    }
  }

  /** `%d` of an `unsigned int`: the argument is read as a 32-bit `int`. */
  function UnsignedAsD(x: u32): (s: string)
    ensures x < 0x8000_0000 ==> s == NatText(x)
    ensures x == 0xFFFF_FFFF ==> s == "-1"
  {
    IntText(ToI32(x))
  }

  /** Different 32-bit values print differently under `%d`. */
  lemma UnsignedAsDInjective(a: u32, b: u32)
    ensures UnsignedAsD(a) == UnsignedAsD(b) ==> a == b
  {
    IntTextRoundTrip(ToI32(a));
    IntTextRoundTrip(ToI32(b));
    I32RoundTrip(a);
    I32RoundTrip(b);
  }

  /** Two texts that start with the same prefix are equal only if what follows is. */
  lemma SamePrefix(p: string, a: string, b: string)
    ensures p + a == p + b ==> a == b
  {
    if p + a == p + b {
      assert a == (p + a)[|p|..];
      assert b == (p + b)[|p|..];
    }
  }

  // ----- swizzle letters -----

  /** The letter of lane `l` of a vector. */
  function LaneLetter(l: nat): char
    requires l < 4
  {
    "xyzw"[l]
  }

  /** A lane list written as swizzle letters. */
  function Spelled(lanes: seq<nat>): string
    requires forall k :: 0 <= k < |lanes| ==> lanes[k] < 4
  {
    if lanes == [] then "" else [LaneLetter(lanes[0])] + Spelled(lanes[1..])
  }

  /** The spellings of the swizzles the text generators print. */
  lemma SwizzleSpellings()
    ensures Spelled([0]) == "x" && Spelled([1]) == "y" && Spelled([2]) == "z" && Spelled([3]) == "w"
    ensures Spelled([0, 1]) == "xy" && Spelled([0, 2]) == "xz" && Spelled([2, 2]) == "zz"
    ensures Spelled([0, 1, 2]) == "xyz" && Spelled([0, 1, 2, 3]) == "xyzw"
  {
    assert Spelled([2, 3]) == "zw";
    assert Spelled([1, 2]) == "yz";
    assert Spelled([1, 2, 3]) == "yzw";
  }

  // ----- folds -----

  /** The text of a loop that appends `f(x)` for each item in order; the first failure stops it. */
  function Gather<T>(items: seq<T>, f: T -> Result<string>): (r: Result<string>)
  {
    if items == [] then Ok("")
    else
      var init :- Gather(items[..|items| - 1], f);
      var last :- f(items[|items| - 1]);
      Ok(init + last)
  }

  /** A fold succeeds exactly when every item's text does. */
  lemma {:induction false} GatherOk<T>(items: seq<T>, f: T -> Result<string>)
    ensures Gather(items, f).Ok? <==> forall k :: 0 <= k < |items| ==> f(items[k]).Ok?
  {
    if items != [] {
      var init := items[..|items| - 1];
      GatherOk(init, f);
      assert forall k :: 0 <= k < |init| ==> init[k] == items[k];
    }
  }

  /** The text of two runs one after the other is the first's followed by the second's. */
  lemma {:induction false} GatherAppend<T>(a: seq<T>, b: seq<T>, f: T -> Result<string>)
    requires Gather(a + b, f).Ok?
    ensures Gather(a, f).Ok? && Gather(b, f).Ok?
    ensures Gather(a + b, f).value == Gather(a, f).value + Gather(b, f).value
  {
    if b == [] {
      assert a + b == a;
    } else {
      var b' := b[..|b| - 1];
      assert (a + b)[..|a + b| - 1] == a + b';
      assert (a + b)[|a + b| - 1] == b[|b| - 1];
      GatherAppend(a, b', f);
    }
  }

  /** Item `k`'s text sits in the output between the texts of the items before and after it. */
  lemma {:induction false} GatherAt<T>(items: seq<T>, f: T -> Result<string>, k: nat)
    requires k < |items| && Gather(items, f).Ok?
    ensures f(items[k]).Ok? && Gather(items[..k], f).Ok? && Gather(items[k + 1..], f).Ok?
    ensures Gather(items, f).value
      == Gather(items[..k], f).value + f(items[k]).value + Gather(items[k + 1..], f).value
  {
    var n := |items| - 1;
    var init := items[..n];
    if k == n {
      assert init == items[..k];
      assert items[k + 1..] == [];
    } else {
      GatherAt(init, f, k);
      assert init[..k] == items[..k];
      var tail := items[k + 1..];
      assert tail[..|tail| - 1] == init[k + 1..];
      assert tail[|tail| - 1] == items[n];
      Regrouped(Gather(items[..k], f).value + f(items[k]).value, Gather(init[k + 1..], f).value, f(items[n]).value);
    }
  }

  lemma Regrouped(a: string, b: string, c: string)
    ensures a + (b + c) == a + b + c
  {
  }

  /** The loop of a `Generate*` section: appends the text of each item in order. */
  method Concatenate<T>(items: seq<T>, f: T -> Result<string>) returns (r: Result<string>)
    ensures r == Gather(items, f)
  {
    var result := "";
    var i := 0;
    while i < |items|
      invariant 0 <= i <= |items|
      invariant Gather(items[..i], f) == Ok(result)
    {
      assert items[..i + 1][..i] == items[..i];
      var line := f(items[i]);
      if line.Err? {
        assert Gather(items[..i + 1], f).Err?;
        GatherPrefixErr(items, f, i + 1);
        return Err(line.error);
      }
      result := result + line.value;
      i := i + 1;
    }
    assert items[..i] == items;
    r := Ok(result);
  }

  /** Once a prefix of the items fails, the whole fold fails with the same error. */
  lemma {:induction false} GatherPrefixErr<T>(items: seq<T>, f: T -> Result<string>, n: nat)
    requires n <= |items| && Gather(items[..n], f).Err?
    ensures Gather(items, f) == Gather(items[..n], f)
    decreases |items| - n
  {
    if n < |items| {
      var next := items[..n + 1];
      assert next[..n] == items[..n];
      GatherPrefixErr(items, f, n + 1);
    } else {
      assert items[..n] == items;
    }
  }

  lemma PrefixAppend(a: string, b: string, c: string)
    requires a <= b
    ensures a <= b + c
  {
  }


  // ----- statement lines -----

  const NewLine: string := "\r\n"

  /** One assignment line of a shader body. */
  function Line(dst: string, rhs: string): string
  {
    "\t" + dst + " = " + rhs + ";" + NewLine
  }

  /** `line` is an assignment to the text `dst`. */
  predicate IsLineFor(dst: string, line: string)
  {
    && |line| >= |dst| + 6
    && line[..|dst| + 4] == "\t" + dst + " = "
    && line[|line| - 3..] == ";" + NewLine
  }

  lemma LineIsLine(dst: string, rhs: string)
    ensures IsLineFor(dst, Line(dst, rhs))
  {
    var l := Line(dst, rhs);
    assert l == ("\t" + dst + " = ") + (rhs + ";" + NewLine);
    assert l == ("\t" + dst + " = " + rhs) + (";" + NewLine);
  }

  /** Arguments separated by ", ". */
  function Arguments(args: seq<string>): string
  {
    if args == [] then "" else if |args| == 1 then args[0] else args[0] + ", " + Arguments(args[1..])
  }

  /** The references printed with `show`, in order. */
  function PrintAll(show: SymbolRef -> Result<string>, refs: seq<SymbolRef>): (r: Result<seq<string>>)
    ensures r.Ok? ==> |r.value| == |refs|
    ensures r.Ok? <==> forall k :: 0 <= k < |refs| ==> show(refs[k]).Ok?
    ensures r.Ok? ==> forall k :: 0 <= k < |refs| ==> r.value[k] == show(refs[k]).value
  {
    if refs == [] then Ok([])
    else
      var first :- show(refs[0]);
      var rest :- PrintAll(show, refs[1..]);
      Ok([first] + rest)
  }

  /** A line whose right-hand side is `name(...)` over the first `n` sources. */
  function CallLine(show: SymbolRef -> Result<string>, s: Statement, name: string, n: nat): (r: Result<string>)
    requires n <= 4
    ensures r.Ok? <==> show(s.dst).Ok? && PrintAll(show, Sources(s)[..n]).Ok?
    ensures r.Ok? ==> r.value == Line(show(s.dst).value, name + "(" + Arguments(PrintAll(show, Sources(s)[..n]).value) + ")")
    ensures r.Ok? ==> IsLineFor(show(s.dst).value, r.value)
  {
    var dst :- show(s.dst);
    var args :- PrintAll(show, Sources(s)[..n]);
    LineIsLine(dst, name + "(" + Arguments(args) + ")");
    Ok(Line(dst, name + "(" + Arguments(args) + ")"))
  }

  /** A line whose right-hand side is `src1 <operator> src2`. */
  function InfixLine(show: SymbolRef -> Result<string>, s: Statement, operator: string): (r: Result<string>)
    ensures r.Ok? ==> show(s.dst).Ok? && IsLineFor(show(s.dst).value, r.value)
  {
    var dst :- show(s.dst);
    var a :- show(s.src1);
    var b :- show(s.src2);
    LineIsLine(dst, a + " " + operator + " " + b);
    Ok(Line(dst, a + " " + operator + " " + b))
  }

  /** A line whose right-hand side is `src1` wrapped in `before` and `after`. */
  function UnaryLine(show: SymbolRef -> Result<string>, s: Statement, before: string, after: string): (r: Result<string>)
    ensures r.Ok? ==> show(s.dst).Ok? && IsLineFor(show(s.dst).value, r.value)
  {
    var dst :- show(s.dst);
    var a :- show(s.src1);
    LineIsLine(dst, before + a + after);
    Ok(Line(dst, before + a + after))
  }
}

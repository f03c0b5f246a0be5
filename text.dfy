/** The string operations the Python code relies on: `sep.join`, `str.split`
    with one separator character, whitespace splitting, `%d`, `%.2f`,
    `upper()`/`lower()` and `strip()`, each stated over `seq<char>`. */
module Text {
  import opened Wrappers

  /** `sep.join(parts)`. */
  function Join(parts: seq<string>, sep: string): (r: string)
    ensures |parts| == 1 ==> r == parts[0]
  {
    if |parts| == 0 then ""
    else if |parts| == 1 then parts[0]
    else parts[0] + sep + Join(parts[1..], sep)
  }

  /** `s.split(c)`: always at least one field; two separators in a row give
      an empty field. */
  function Split(s: string, c: char): (r: seq<string>)
    ensures |r| >= 1
  {
    if |s| == 0 then [""]
    else
      var rest := Split(s[1..], c);
      if s[0] == c then [""] + rest else [[s[0]] + rest[0]] + rest[1..]
  }

  /** The first field is the longest prefix without the separator:
      `s.split(c)[0]` stops at the first `c` or at the end. */
  lemma {:induction false} SplitFirst(s: string, c: char)
    ensures var f := Split(s, c)[0];
      c !in f && |f| <= |s| && f == s[..|f|] && (|f| < |s| ==> s[|f|] == c)
  {
    if |s| > 0 && s[0] != c {
      SplitFirst(s[1..], c);
    }
  }

  /** A string without the separator is a single field. */
  lemma {:induction false} SplitNoSeparator(p: string, c: char)
    requires c !in p
    ensures Split(p, c) == [p]
  {
    if |p| > 0 {
      SplitNoSeparator(p[1..], c);
      assert [p[0]] + p[1..] == p;
    }
  }

  /** A separator-free prefix followed by a separator is the first field. */
  lemma {:induction false} SplitAfterField(p: string, c: char, t: string)
    requires c !in p
    ensures Split(p + [c] + t, c) == [p] + Split(t, c)
  {
    if |p| == 0 {
      assert p + [c] + t == [c] + t;
      assert ([c] + t)[1..] == t;
    } else {
      SplitAfterField(p[1..], c, t);
      assert (p + [c] + t)[1..] == p[1..] + [c] + t;
      assert [p[0]] + p[1..] == p;
    }
  }

  /** Splitting undoes joining when no part holds the separator. */
  lemma {:induction false} SplitJoin(parts: seq<string>, c: char)
    requires |parts| >= 1
    requires forall i :: 0 <= i < |parts| ==> c !in parts[i]
    ensures Split(Join(parts, [c]), c) == parts
  {
    if |parts| == 1 {
      SplitNoSeparator(parts[0], c);
    } else {
      SplitJoin(parts[1..], c);
      SplitAfterField(parts[0], c, Join(parts[1..], [c]));
      assert [parts[0]] + parts[1..] == parts;
    }
  }

  /** A joined string contains the separator character only where the parts
      or the separator put it. */
  lemma {:induction false} JoinFree(parts: seq<string>, sep: string, c: char)
    requires c !in sep
    requires forall i :: 0 <= i < |parts| ==> c !in parts[i]
    ensures c !in Join(parts, sep)
  {
    if |parts| > 1 {
      JoinFree(parts[1..], sep, c);
    }
  }

  /** Joining one more part appends the separator and that part. */
  lemma {:induction false} JoinSnoc(parts: seq<string>, sep: string, x: string)
    requires |parts| >= 1
    ensures Join(parts + [x], sep) == Join(parts, sep) + sep + x
  {
    if |parts| > 1 {
      JoinSnoc(parts[1..], sep, x);
      assert (parts + [x])[1..] == parts[1..] + [x];
    }
  }

  /** Joining two non-empty lists is joining each and putting the separator between. */
  lemma {:induction false} JoinConcat(p: seq<string>, q: seq<string>, sep: string)
    requires |p| >= 1 && |q| >= 1
    ensures Join(p + q, sep) == Join(p, sep) + sep + Join(q, sep)
  {
    if |p| > 1 {
      JoinConcat(p[1..], q, sep);
      assert (p + q)[1..] == p[1..] + q;
    }
  }

  /** Splitting two joined lists, themselves joined by the separator, gives
      back both lists when no part holds the separator. */
  lemma SplitJoinConcat(p: seq<string>, q: seq<string>, c: char)
    requires |p| >= 1 && |q| >= 1
    requires forall i :: 0 <= i < |p| ==> c !in p[i]
    requires forall i :: 0 <= i < |q| ==> c !in q[i]
    ensures Split(Join(p, [c]) + [c] + Join(q, [c]), c) == p + q
  {
    JoinConcat(p, q, [c]);
    forall i | 0 <= i < |p + q| ensures c !in (p + q)[i] {
      if i >= |p| {
        assert (p + q)[i] == q[i - |p|];
      }
    }
    SplitJoin(p + q, c);
  }

  predicate IsDigit(ch: char) { '0' <= ch <= '9' }

  function Digit(d: nat): (ch: char)
    requires d < 10
    ensures IsDigit(ch) && (ch as int) - ('0' as int) == d
  {
    ['0', '1', '2', '3', '4', '5', '6', '7', '8', '9'][d]
  }

  /** Decimal text of a natural number, as `%d` writes it. */
  function NatToString(n: nat): (r: string)
    ensures |r| >= 1
    ensures forall i :: 0 <= i < |r| ==> IsDigit(r[i])
  {
    if n < 10 then [Digit(n)] else NatToString(n / 10) + [Digit(n % 10)]
  }

  /** Value of a string of decimal digits. */
  function ParseNat(s: string): nat
    requires forall i :: 0 <= i < |s| ==> IsDigit(s[i])
  {
    if |s| == 0 then 0
    else
      assert IsDigit(s[|s| - 1]);
      10 * ParseNat(s[..|s| - 1]) + ((s[|s| - 1] as int) - ('0' as int))
  }

  /** Reading the decimal text back gives the number. */
  lemma {:induction false} ParseNatToString(n: nat)
    ensures ParseNat(NatToString(n)) == n
  {
    if n >= 10 {
      ParseNatToString(n / 10);
      var s := NatToString(n);
      assert s[..|s| - 1] == NatToString(n / 10);
    }
  }

  /** `%d` of a Python int: a minus sign, then the digits of the magnitude. */
  function IntToString(i: int): (r: string)
    ensures |r| >= 1
    ensures forall k :: 0 <= k < |r| ==> IsDigit(r[k]) || (k == 0 && r[k] == '-')
  {
    if i < 0 then "-" + NatToString(-i) else NatToString(i)
  }

  /** Text shaped like `%d` output: an optional leading minus, then digits. */
  predicate IntShaped(s: string) {
    |s| >= 1 && forall k :: 0 <= k < |s| ==> IsDigit(s[k]) || (k == 0 && s[k] == '-' && |s| >= 2)
  }

  /** `int(s)` of `%d` text. */
  function ParseInt(s: string): int
    requires IntShaped(s)
  {
    if s[0] == '-' then -(ParseNat(s[1..]) as int) else ParseNat(s) as int
  }

  /** Reading `%d` text back gives the integer. */
  lemma ParseIntToString(i: int)
    ensures IntShaped(IntToString(i)) && ParseInt(IntToString(i)) == i
  {
    if i < 0 {
      ParseNatToString(-i);
      assert IntToString(i)[1..] == NatToString(-i);
    } else {
      ParseNatToString(i);
    }
  }

  /** `int(x)` and `%d` of a float: truncation toward zero. */
  function Trunc(x: real): (r: int)
    ensures 0.0 <= x ==> r == x.Floor
    ensures x < 0.0 ==> r <= 0
    ensures (r as real) <= (if x < 0.0 then -x else x) && -(r as real) <= (if x < 0.0 then -x else x)
  {
    if x >= 0.0 then x.Floor else -((-x).Floor)
  }

  /** `%.2f`: two decimals, rounding the exact value half away from zero. */
  function Fixed2(x: real): (r: string)
    ensures |r| >= 4 && r[|r| - 3] == '.'
    ensures IsDigit(r[|r| - 2]) && IsDigit(r[|r| - 1])
    ensures forall k :: 0 <= k < |r| ==> IsDigit(r[k]) || r[k] == '.' || (k == 0 && r[k] == '-')
  {
    var a := if x < 0.0 then -x else x;
    var h := (a * 100.0 + 0.5).Floor;
    assert h >= 0;
    (if x < 0.0 then "-" else "") + NatToString(h / 100) + "." + [Digit(h % 100 / 10), Digit(h % 10)]
  }

  /** `str(x)` of a whole-valued float, such as a base-pair position. */
  function WholeFloatToString(i: int): (r: string)
    ensures |r| >= 3 && r[|r| - 2..] == ".0"
  {
    IntToString(i) + ".0"
  }

  /** `int(float(s))` of `str` text of a whole-valued float. */
  function ParseWholeFloat(s: string): int
    requires |s| >= 3 && IntShaped(s[..|s| - 2])
  {
    ParseInt(s[..|s| - 2])
  }

  /** Reading the text of a whole-valued float back gives the integer. */
  lemma ParseWholeFloatToString(i: int)
    ensures IntShaped(WholeFloatToString(i)[..|WholeFloatToString(i)| - 2])
    ensures ParseWholeFloat(WholeFloatToString(i)) == i
  {
    var s := WholeFloatToString(i);
    assert s[..|s| - 2] == IntToString(i);
    ParseIntToString(i);
  }

  /** The characters Python's `str.strip()` and `str.split()` treat as white space. */
  predicate IsSpace(ch: char) {
    ch == ' ' || ch == '\t' || ch == '\n' || ch == '\r' || ch == '\U{000B}' || ch == '\U{000C}'
  }

  /** `s.strip() == ''`. */
  predicate IsBlank(s: string) {
    forall i :: 0 <= i < |s| ==> IsSpace(s[i])
  }

  function DropSpaces(s: string): (r: string)
    ensures |r| <= |s| && r == s[|s| - |r|..]
    ensures IsBlank(s[..|s| - |r|])
    ensures r != [] ==> !IsSpace(r[0])
  {
    if s != [] && IsSpace(s[0]) then DropSpaces(s[1..]) else s
  }

  function TakeWord(t: string): (w: string)
    ensures |w| <= |t| && w == t[..|w|]
    ensures forall i :: 0 <= i < |w| ==> !IsSpace(w[i])
    ensures |w| < |t| ==> IsSpace(t[|w|])
  {
    if t == [] || IsSpace(t[0]) then [] else [t[0]] + TakeWord(t[1..])
  }

  /** `s.split()[0]`, or None where `s.split()` is empty and indexing it raises. */
  function FirstWord(s: string): Option<string>
  {
    var t := DropSpaces(s);
    if t == [] then None else Some(TakeWord(t))
  }

  /** The first word exists exactly when the string is not blank, and it is
      the maximal run of non-space characters after the leading spaces. */
  lemma FirstWordShape(s: string)
    ensures FirstWord(s).None? <==> IsBlank(s)
    ensures FirstWord(s).Some? ==>
      var w := FirstWord(s).value;
      exists k :: 0 <= k && k + |w| <= |s| && IsBlank(s[..k]) && s[k..k + |w|] == w
        && |w| >= 1 && (forall i :: 0 <= i < |w| ==> !IsSpace(w[i]))
        && (k + |w| == |s| || IsSpace(s[k + |w|]))
  {
    var t := DropSpaces(s);
    var k := |s| - |t|;
    if t == [] {
      assert s[..k] == s;
    } else {
      assert !IsBlank(s) by { assert !IsSpace(s[k]); }
      var w := TakeWord(t);
      assert s[k..k + |w|] == w;
    }
  }

  function StartsWith(s: string, p: string): bool {
    |p| <= |s| && s[..|p|] == p
  }

  function UpperChar(ch: char): char {
    if 'a' <= ch <= 'z' then (ch as int - 'a' as int + 'A' as int) as char else ch
  }

  function LowerChar(ch: char): char {
    if 'A' <= ch <= 'Z' then (ch as int - 'A' as int + 'a' as int) as char else ch
  }

  /** `s.upper()` for ASCII letters. */
  function Upper(s: string): (r: string)
    ensures |r| == |s|
  {
    seq(|s|, i requires 0 <= i < |s| => UpperChar(s[i]))
  }

  /** `s.lower()` for ASCII letters. */
  function Lower(s: string): (r: string)
    ensures |r| == |s|
  {
    seq(|s|, i requires 0 <= i < |s| => LowerChar(s[i]))
  }

  /** Upper-casing a string that is already upper case changes nothing. */
  lemma UpperIdempotent(s: string)
    ensures Upper(Upper(s)) == Upper(s)
  {
  }
}

/** The text forms the formatters give an allele, and their inverses. */
module Encoding {
  import opened Text
  import opened Populations

  /** `'1' if x == 0 else '2'`: the 1/2 allele code of PLINK and TreeDT. */
  function Recode(a: Allele): string {
    if a == 0 then "1" else "2"
  }

  /** Reading a 1/2 code back. */
  function Unrecode(s: string): Allele {
    if s == "1" then 0 else 1
  }

  /** `str(x)` (and `repr(x)`) of a binary allele. */
  function Str(a: Allele): string {
    if a == 0 then "0" else "1"
  }

  /** Reading an allele digit back. */
  function Unstr(s: string): Allele {
    if s == "0" then 0 else 1
  }

  /** The 1/2 code of every allele of a haplotype. */
  function Recoded(h: seq<Allele>): (r: seq<string>)
    ensures |r| == |h| && forall i :: 0 <= i < |h| ==> r[i] == Recode(h[i])
  {
    seq(|h|, i requires 0 <= i < |h| => Recode(h[i]))
  }

  /** `str(x)` of every allele of a haplotype. */
  function Strs(h: seq<Allele>): (r: seq<string>)
    ensures |r| == |h| && forall i :: 0 <= i < |h| ==> r[i] == Str(h[i])
  {
    seq(|h|, i requires 0 <= i < |h| => Str(h[i]))
  }

  function Unrecoded(ts: seq<string>): seq<Allele> {
    seq(|ts|, i requires 0 <= i < |ts| => Unrecode(ts[i]))
  }

  function Unstrs(ts: seq<string>): seq<Allele> {
    seq(|ts|, i requires 0 <= i < |ts| => Unstr(ts[i]))
  }

  /** `"".join(...)` of the allele digits, read back character by character. */
  function Undigits(s: string): seq<Allele> {
    seq(|s|, i requires 0 <= i < |s| => if s[i] == '0' then 0 else 1)
  }

  /** No code holds a character other than its digit. */
  lemma CodesFree(h: seq<Allele>, c: char)
    requires !IsDigit(c)
    ensures forall i :: 0 <= i < |h| ==> c !in Recoded(h)[i] && c !in Strs(h)[i]
  {
  }

  /** Decimal text holds no character other than digits. */
  lemma NatFree(n: nat, c: char)
    requires !IsDigit(c)
    ensures c !in NatToString(n)
  {
  }

  /** A space-joined 1/2 haplotype splits back into its alleles. */
  lemma RecodedRoundTrip(h: seq<Allele>)
    requires |h| >= 1
    ensures Split(Join(Recoded(h), " "), ' ') == Recoded(h)
    ensures Unrecoded(Recoded(h)) == h
  {
    CodesFree(h, ' ');
    SplitJoin(Recoded(h), ' ');
  }

  /** A space-joined haplotype of allele digits splits back into its alleles. */
  lemma StrsRoundTrip(h: seq<Allele>, c: char)
    requires |h| >= 1 && !IsDigit(c)
    ensures Split(Join(Strs(h), [c]), c) == Strs(h)
    ensures Unstrs(Strs(h)) == h
  {
    CodesFree(h, c);
    SplitJoin(Strs(h), c);
  }

  /** Concatenated allele digits: one character per allele, in order. */
  lemma {:induction false} DigitsShape(h: seq<Allele>)
    ensures |Join(Strs(h), "")| == |h|
    ensures forall i :: 0 <= i < |h| ==> Join(Strs(h), "")[i] == if h[i] == 0 then '0' else '1'
  {
    if |h| > 1 {
      DigitsShape(h[1..]);
      assert Strs(h)[1..] == Strs(h[1..]);
    }
  }

  /** The concatenated digits read back as the haplotype. */
  lemma DigitsRoundTrip(h: seq<Allele>)
    ensures Undigits(Join(Strs(h), "")) == h
  {
    DigitsShape(h);
  }
  /** `str(x)` of each base-pair position. */
  function Floats(ps: seq<int>): (r: seq<string>)
    ensures |r| == |ps| && forall i :: 0 <= i < |ps| ==> r[i] == WholeFloatToString(ps[i])
  {
    if ps == [] then [] else [WholeFloatToString(ps[0])] + Floats(ps[1..])
  }

  /** `repr(int(x))` of each base-pair position. */
  function Ints(ps: seq<int>): (r: seq<string>)
    ensures |r| == |ps| && forall i :: 0 <= i < |ps| ==> r[i] == IntToString(ps[i])
  {
    if ps == [] then [] else [IntToString(ps[0])] + Ints(ps[1..])
  }

  /** `str(x)` of a whole position holds no character other than digits, a
      sign and the point. */
  lemma FloatFree(x: int, c: char)
    requires !IsDigit(c) && c != '-' && c != '.'
    ensures c !in WholeFloatToString(x)
  {
    var s := IntToString(x);
    assert WholeFloatToString(x) == s + ".0";
    assert c !in s by {
      forall k | 0 <= k < |s|
        ensures s[k] != c
      {
      }
    }
  }

  /** Positions joined by a separator that is not part of a number split back
      into their fields, and each field reads back as its position. */
  lemma FloatsRoundTrip(ps: seq<int>, c: char)
    requires |ps| >= 1 && !IsDigit(c) && c != '-' && c != '.'
    ensures Split(Join(Floats(ps), [c]), c) == Floats(ps)
    ensures forall i :: 0 <= i < |ps| ==> ParseWholeFloat(Floats(ps)[i]) == ps[i]
  {
    var fs := Floats(ps);
    forall i | 0 <= i < |ps|
      ensures c !in fs[i] && ParseWholeFloat(fs[i]) == ps[i]
    {
      FloatFree(ps[i], c);
      ParseWholeFloatToString(ps[i]);
    }
    SplitJoin(fs, c);
  }

  /** The same for the `repr(int(x))` text. */
  lemma IntsRoundTrip(ps: seq<int>, c: char)
    requires |ps| >= 1 && !IsDigit(c) && c != '-'
    ensures Split(Join(Ints(ps), [c]), c) == Ints(ps)
    ensures forall i :: 0 <= i < |ps| ==> IntShaped(Ints(ps)[i]) && ParseInt(Ints(ps)[i]) == ps[i]
  {
    forall i | 0 <= i < |ps|
      ensures c !in Ints(ps)[i] && IntShaped(Ints(ps)[i]) && ParseInt(Ints(ps)[i]) == ps[i]
    {
      ParseIntToString(ps[i]);
    }
    SplitJoin(Ints(ps), c);
  }
}

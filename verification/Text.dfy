/** The string operations the error handling relies on, for ASCII case mapping. */
module Text {

  /** The characters `str::trim` removes. */
  predicate IsSpace(c: char) {
    || '\U{9}' <= c <= '\U{D}' || c == ' ' || c == '\U{85}' || c == '\U{A0}' || c == '\U{1680}'
    || '\U{2000}' <= c <= '\U{200A}' || c == '\U{2028}' || c == '\U{2029}' || c == '\U{202F}'
    || c == '\U{205F}' || c == '\U{3000}'
  }

  predicate IsBlank(s: string) {
    forall i :: 0 <= i < |s| ==> IsSpace(s[i])
  }

  /** White space at both ends removed. */
  function Trim(s: string): string
    decreases |s|
  {
    if s == "" then ""
    else if IsSpace(s[0]) then Trim(s[1..])
    else if IsSpace(s[|s| - 1]) then Trim(s[..|s| - 1])
    else s
  }

  function LowerChar(c: char): char {
    if 'A' <= c <= 'Z' then c - 'A' + 'a' else c
  }

  function Lower(s: string): (r: string)
    ensures |r| == |s| && forall i :: 0 <= i < |s| ==> r[i] == LowerChar(s[i])
  {
    seq(|s|, i requires 0 <= i < |s| => LowerChar(s[i]))
  }

  predicate OccursAt(s: string, part: string, i: nat) {
    i + |part| <= |s| && s[i..i + |part|] == part
  }

  predicate Contains(s: string, part: string) {
    exists i :: 0 <= i <= |s| && OccursAt(s, part, i)
  }

  /** Words separated by single blanks. */
  function Sentence(words: seq<string>): string
    decreases |words|
  {
    if words == [] then ""
    else if |words| == 1 then words[0]
    else Sentence(words[..|words| - 1]) + " " + words[|words| - 1]
  }

  // ----------------------------------------------------------- concatenation

  lemma LowerConcat(a: string, b: string)
    ensures Lower(a + b) == Lower(a) + Lower(b)
  {
  }

  lemma ContainsShifted(a: string, s: string, b: string, part: string)
    requires Contains(s, part)
    ensures Contains(a + s + b, part)
  {
    var i :| 0 <= i <= |s| && OccursAt(s, part, i);
    assert (a + s + b)[|a| + i..|a| + i + |part|] == s[i..i + |part|];
    assert OccursAt(a + s + b, part, |a| + i);
  }

  /** A part without the separator lies on one side of it. */
  lemma ContainsSplit(a: string, c: char, b: string, part: string)
    requires c !in part
    ensures Contains(a + [c] + b, part) <==> Contains(a, part) || Contains(b, part)
  {
    var s := a + [c] + b;
    if Contains(a, part) {
      ContainsShifted("", a, [c] + b, part);
      assert "" + a + ([c] + b) == s;
    }
    if Contains(b, part) {
      ContainsShifted(a + [c], b, "", part);
      assert a + [c] + b + "" == s;
    }
    if Contains(s, part) {
      var i :| 0 <= i <= |s| && OccursAt(s, part, i);
      OccursOnOneSide(a, c, b, part, i);
    }
  }

  lemma OccursOnOneSide(a: string, c: char, b: string, part: string, i: nat)
    requires c !in part && OccursAt(a + [c] + b, part, i)
    ensures Contains(a, part) || Contains(b, part)
  {
    var s := a + [c] + b;
    if i + |part| <= |a| {
      assert s[i..i + |part|] == a[i..i + |part|];
      assert OccursAt(a, part, i);
    } else if i > |a| {
      assert s[i..i + |part|] == b[i - |a| - 1..i - |a| - 1 + |part|];
      assert OccursAt(b, part, i - |a| - 1);
    } else {
      OccurrenceMeets(a, c, b, part, i);
    }
  }

  /** A part that reaches over the separator contains it. */
  lemma OccurrenceMeets(a: string, c: char, b: string, part: string, i: nat)
    requires i <= |a| < i + |part| && OccursAt(a + [c] + b, part, i)
    ensures c in part
  {
    var s := a + [c] + b;
    assert s[i..i + |part|][|a| - i] == s[|a|] == c;
  }

  /** A part that does not begin with `c` is not changed by a `c` in front. */
  lemma ContainsBehind(c: char, s: string, part: string)
    requires part != "" && part[0] != c
    ensures Contains([c] + s, part) <==> Contains(s, part)
  {
    if Contains(s, part) {
      ContainsShifted([c], s, "", part);
      assert [c] + s + "" == [c] + s;
    }
    if Contains([c] + s, part) {
      var i :| 0 <= i <= |[c] + s| && OccursAt([c] + s, part, i);
      assert ([c] + s)[i..i + |part|][0] == ([c] + s)[i];
      assert ([c] + s)[i..i + |part|] == s[i - 1..i - 1 + |part|];
      assert OccursAt(s, part, i - 1);
    }
  }

  // ------------------------------------------------- what the operations mean

  /** `s` reads: something, then `part`, then something. */
  ghost predicate Mentions(s: string, part: string) {
    exists before: string, after: string :: s == before + part + after
  }

  lemma ContainsIsMentions(s: string, part: string)
    ensures Contains(s, part) <==> Mentions(s, part)
  {
    if Contains(s, part) {
      var i :| 0 <= i <= |s| && OccursAt(s, part, i);
      assert s == s[..i] + part + s[i + |part|..];
    }
    if Mentions(s, part) {
      var before: string, after: string :| s == before + part + after;
      assert s[|before|..|before| + |part|] == part;
      assert OccursAt(s, part, |before|);
    }
  }

  const UPPER := "ABCDEFGHIJKLMNOPQRSTUVWXYZ"
  const LOWER := "abcdefghijklmnopqrstuvwxyz"

  lemma LetterAt(k: nat)
    requires k < 26
    ensures |UPPER| == 26 && UPPER[k] == 'A' + k as char
    ensures |LOWER| == 26 && LOWER[k] == 'a' + k as char
  {
  }

  /** Capital letters become small ones, everything else stays. */
  lemma LowerIsLiteral(s: string, i: nat)
    requires i < |s|
    ensures forall k :: 0 <= k < 26 && s[i] == UPPER[k] ==> Lower(s)[i] == LOWER[k]
    ensures s[i] !in UPPER ==> Lower(s)[i] == s[i]
  {
    forall k | 0 <= k < 26 && s[i] == UPPER[k]
      ensures Lower(s)[i] == LOWER[k]
    {
      LetterAt(k);
    }
    if 'A' <= s[i] <= 'Z' {
      var k := s[i] as int - 'A' as int;
      LetterAt(k);
      assert UPPER[k] == s[i];
    }
  }

  /** White space is all that is removed, and none is left at either end. */
  lemma {:induction false} TrimIsExact(s: string) returns (before: string, after: string)
    ensures s == before + Trim(s) + after && IsBlank(before) && IsBlank(after)
    ensures Trim(s) != "" ==> !IsSpace(Trim(s)[0]) && !IsSpace(Trim(s)[|Trim(s)| - 1])
    ensures Trim(s) == "" <==> IsBlank(s)
    decreases |s|
  {
    hide IsSpace;
    before, after := "", "";
    if s == "" {
    } else if IsSpace(s[0]) {
      var rest := s[1..];
      var b, a := TrimIsExact(rest);
      before, after := [s[0]] + b, a;
      assert s == [s[0]] + rest;
      assert [s[0]] + (b + Trim(rest) + a) == before + Trim(rest) + after;
      assert IsBlank(s) <==> IsBlank(rest);
    } else if IsSpace(s[|s| - 1]) {
      var init := s[..|s| - 1];
      var b, a := TrimIsExact(init);
      before, after := b, a + [s[|s| - 1]];
      assert s == init + [s[|s| - 1]];
      assert (b + Trim(init) + a) + [s[|s| - 1]] == before + Trim(init) + after;
      assert Trim(s) == Trim(init) && !IsBlank(s);
      assert init[0] == s[0];
    }
  }

  /** The white-space characters of Unicode, by number. */
  lemma SpaceIsLiteral(c: char)
    ensures IsSpace(c) <==>
            c as int in {0x9, 0xA, 0xB, 0xC, 0xD, 0x20, 0x85, 0xA0, 0x1680, 0x2000, 0x2001, 0x2002, 0x2003, 0x2004,
                         0x2005, 0x2006, 0x2007, 0x2008, 0x2009, 0x200A, 0x2028, 0x2029, 0x202F, 0x205F, 0x3000}
  {
  }
}

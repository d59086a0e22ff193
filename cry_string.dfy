/** The parts of the engine string class (CryStringT, over UTF-8 text)
    that the request and command parsing use: find, Mid, Trim and MakeLower,
    with size_t arithmetic that wraps modulo 2^64. */
module CryString {

  /** string::npos, the all-ones size_t returned by a failed find. */
  const NPOS: nat := 0xFFFF_FFFF_FFFF_FFFF
  const SIZE_MODULUS: nat := 0x1_0000_0000_0000_0000

  /** Reduction modulo 2^64, by repeated subtraction. */
  function Wrap(n: nat): (r: nat)
    ensures r < SIZE_MODULUS
    ensures n < SIZE_MODULUS ==> r == n
    ensures SIZE_MODULUS <= n < 2 * SIZE_MODULUS ==> r == n - SIZE_MODULUS
    decreases n
  {
    if n < SIZE_MODULUS then n else Wrap(n - SIZE_MODULUS)
  }

  /** Unsigned size_t addition, wrapping modulo 2^64. */
  function SizeAdd(a: nat, b: nat): (r: nat)
    ensures r < SIZE_MODULUS
    ensures a + b < SIZE_MODULUS ==> r == a + b
    ensures a == NPOS && 0 < b <= SIZE_MODULUS ==> r == b - 1
  {
    Wrap(a + b)
  }

  /** The white space Trim removes: the C locale's isspace. */
  predicate IsSpace(c: char)
    ensures IsSpace(c) <==> c == ' ' || '\t' <= c <= '\r'
  {
    c == ' ' || c == '\t' || c == '\n' || c == '\r' || c == '\U{0B}' || c == '\U{0C}'
  }

  /** find_first_of for one character: an index holding c, or NPOS;
      FindFirstIsFirst shows no earlier index holds c. */
  function FindFirst(s: string, c: char): (r: nat)
    ensures c in s ==> r < |s| && s[r] == c
    ensures c !in s ==> r == NPOS
  {
    if |s| == 0 then NPOS
    else if s[0] == c then 0
    else if c !in s[1..] then NPOS
    else FindFirst(s[1..], c) + 1
  }

  lemma {:induction false} FindFirstIsFirst(s: string, c: char)
    requires c in s
    ensures c !in s[..FindFirst(s, c)]
  {
    if s[0] != c {
      FindFirstIsFirst(s[1..], c);
      var k := FindFirst(s[1..], c);
      assert s[..k + 1] == [s[0]] + s[1..][..k];
    }
  }

  /** An index holding c with no c before it is what FindFirst finds. */
  lemma {:induction false} FirstAt(s: string, c: char, i: nat)
    requires i < |s| && s[i] == c && c !in s[..i]
    ensures FindFirst(s, c) == i
  {
    if i > 0 {
      assert s[0] == s[..i][0];
      assert s[1..][i - 1] == c;
      assert s[1..][..i - 1] == s[..i][1..];
      FirstAt(s[1..], c, i - 1);
    }
  }

  /** find_last_of for one character: an index holding c, or NPOS;
      FindLastIsLast shows no later index holds c. */
  function FindLast(s: string, c: char): (r: nat)
    ensures c in s ==> r < |s| && s[r] == c
    ensures c !in s ==> r == NPOS
  {
    if |s| == 0 then NPOS
    else if s[|s| - 1] == c then |s| - 1
    else FindLast(s[..|s| - 1], c)
  }

  lemma {:induction false} FindLastIsLast(s: string, c: char)
    requires c in s
    ensures c !in s[FindLast(s, c) + 1..]
  {
    if s[|s| - 1] != c {
      var t := s[..|s| - 1];
      assert c in t by {
        var i :| 0 <= i < |s| && s[i] == c;
        assert t[i] == c;
      }
      FindLastIsLast(t, c);
      var k := FindLast(t, c);
      assert s[k + 1..] == t[k + 1..] + [s[|s| - 1]];
    }
  }

  /** An index holding c with no c after it is what FindLast finds. */
  lemma {:induction false} LastAt(s: string, c: char, i: nat)
    requires i < |s| && s[i] == c && c !in s[i + 1..]
    ensures FindLast(s, c) == i
  {
    if i < |s| - 1 {
      var t := s[..|s| - 1];
      assert s[|s| - 1] == s[i + 1..][|s| - 2 - i];
      assert t[i + 1..] == s[i + 1..][..|s| - 2 - i];
      LastAt(t, c, i);
    }
  }

  /** Mid(first, count): at most count characters from index first;
      empty when first is at or past the end. */
  function Mid(s: string, first: nat, count: nat): (r: string)
    ensures first >= |s| ==> r == []
    ensures first < |s| ==> |r| == if first + count < |s| then count else |s| - first
    ensures first < |s| ==> r == s[first..first + |r|]
  {
    if first >= |s| then [] else s[first..if first + count < |s| then first + count else |s|]
  }

  function TrimLeft(s: string): (r: string)
    ensures |r| <= |s|
    ensures r == [] || !IsSpace(r[0])
  {
    if |s| > 0 && IsSpace(s[0]) then TrimLeft(s[1..]) else s
  }

  /** TrimLeft keeps a suffix of the text. */
  lemma {:induction false} TrimLeftIsSuffix(s: string)
    ensures TrimLeft(s) == s[|s| - |TrimLeft(s)|..]
  {
    if |s| > 0 && IsSpace(s[0]) {
      TrimLeftIsSuffix(s[1..]);
    }
  }

  /** TrimLeft removes white space only. */
  lemma {:induction false} TrimLeftRemovesSpace(s: string)
    ensures forall i :: 0 <= i < |s| - |TrimLeft(s)| ==> IsSpace(s[i])
  {
    if |s| > 0 && IsSpace(s[0]) {
      TrimLeftRemovesSpace(s[1..]);
    }
  }

  function TrimRight(s: string): (r: string)
    ensures |r| <= |s|
    ensures r == [] || !IsSpace(r[|r| - 1])
  {
    if |s| > 0 && IsSpace(s[|s| - 1]) then TrimRight(s[..|s| - 1]) else s
  }

  /** TrimRight keeps a prefix of the text. */
  lemma {:induction false} TrimRightIsPrefix(s: string)
    ensures TrimRight(s) == s[..|TrimRight(s)|]
  {
    if |s| > 0 && IsSpace(s[|s| - 1]) {
      TrimRightIsPrefix(s[..|s| - 1]);
    }
  }

  /** TrimRight removes white space only. */
  lemma {:induction false} TrimRightRemovesSpace(s: string)
    ensures forall i :: |TrimRight(s)| <= i < |s| ==> IsSpace(s[i])
  {
    if |s| > 0 && IsSpace(s[|s| - 1]) {
      TrimRightRemovesSpace(s[..|s| - 1]);
    }
  }

  /** Trim: the text with leading and trailing white space removed. */
  function Trim(s: string): (r: string)
    ensures |r| <= |s|
    ensures r == [] || (!IsSpace(r[0]) && !IsSpace(r[|r| - 1]))
  {
    TrimLeftIsSuffix(TrimRight(s));
    TrimLeft(TrimRight(s))
  }

  /** Trim keeps a contiguous part of the text. */
  lemma TrimIsSlice(s: string)
    ensures |Trim(s)| <= |TrimRight(s)| && Trim(s) == s[|TrimRight(s)| - |Trim(s)|..|TrimRight(s)|]
  {
    var right := TrimRight(s);
    var r := TrimLeft(right);
    TrimRightIsPrefix(s);
    TrimLeftIsSuffix(right);
    assert r == right[|right| - |r|..];
    assert r == s[|right| - |r|..|right|];
  }

  predicate IsUpper(c: char) { 'A' <= c <= 'Z' }

  /** tolower in the C locale: only ASCII letters change. */
  function LowerChar(c: char): (d: char)
    ensures !IsUpper(d)
    ensures !IsUpper(c) ==> d == c
    ensures IsUpper(c) ==> d as int == c as int + 32
  {
    if IsUpper(c) then (c as int + 32) as char else c
  }

  /** MakeLower: every ASCII capital replaced by its small letter. */
  function MakeLower(s: string): (r: string)
    ensures |r| == |s|
  {
    if s == [] then [] else [LowerChar(s[0])] + MakeLower(s[1..])
  }

  /** MakeLower maps every character through LowerChar. */
  lemma {:induction false} MakeLowerMapsChars(s: string)
    ensures forall i :: 0 <= i < |s| ==> MakeLower(s)[i] == LowerChar(s[i])
  {
    if s != [] {
      MakeLowerMapsChars(s[1..]);
    }
  }

  /** MakeLower leaves no capitals. */
  lemma MakeLowerHasNoCapitals(s: string)
    ensures forall i :: 0 <= i < |MakeLower(s)| ==> !IsUpper(MakeLower(s)[i])
  {
    MakeLowerMapsChars(s);
  }

  lemma MakeLowerIdempotent(s: string)
    ensures MakeLower(MakeLower(s)) == MakeLower(s)
  {
    var once := MakeLower(s);
    var twice := MakeLower(once);
    MakeLowerMapsChars(s);
    MakeLowerMapsChars(once);
    assert forall i :: 0 <= i < |s| ==> twice[i] == once[i];
  }

  /** Text without capitals is unchanged by MakeLower. */
  lemma {:induction false} MakeLowerOfLower(s: string)
    requires forall i :: 0 <= i < |s| ==> !IsUpper(s[i])
    ensures MakeLower(s) == s
  {
    if s != [] {
      MakeLowerOfLower(s[1..]);
    }
  }

  /** Text with no white space at either end is its own Trim. */
  lemma TrimUnpadded(s: string)
    requires s != [] ==> !IsSpace(s[0]) && !IsSpace(s[|s| - 1])
    ensures Trim(s) == s
  {
    assert TrimRight(s) == s;
    assert TrimLeft(s) == s;
  }

  /** Mid with count npos runs to the end of the text. */
  lemma MidToEnd(s: string, first: nat)
    ensures first <= |s| <= NPOS ==> Mid(s, first, NPOS) == s[first..]
  {
  }
}

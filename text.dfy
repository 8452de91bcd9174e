/** The string operations of Python that the notification builder relies
    on: strip, the character test built on it, isdigit, int() of a digit
    string, "%s" of a small integer, and ' '.join. */
module Text {

  /** The characters Python 2.7 treats as whitespace in unicode.strip(). */
  const Whitespace: set<char> := {
    '\t', '\n', '\U{000B}', '\U{000C}', '\r',
    '\U{001C}', '\U{001D}', '\U{001E}', '\U{001F}', ' ',
    '\U{0085}', '\U{00A0}', '\U{1680}', '\U{180E}',
    '\U{2000}', '\U{2001}', '\U{2002}', '\U{2003}', '\U{2004}', '\U{2005}',
    '\U{2006}', '\U{2007}', '\U{2008}', '\U{2009}', '\U{200A}',
    '\U{2028}', '\U{2029}', '\U{202F}', '\U{205F}', '\U{3000}'
  }

  /** The characters of a dotted numeric OID. */
  const OidChars: set<char> := {'0', '1', '2', '3', '4', '5', '6', '7', '8', '9', '.'}

  /** First half of Python's s.strip(chars): the leading run of `chars` removed. */
  function StripLeft(s: string, chars: set<char>): (r: string)
    ensures |r| <= |s|
  {
    if s != [] && s[0] in chars then StripLeft(s[1..], chars) else s
  }

  /** Second half of Python's s.strip(chars): the trailing run of `chars` removed. */
  function StripRight(s: string, chars: set<char>): (r: string)
    ensures |r| <= |s|
  {
    if s != [] && s[|s| - 1] in chars then StripRight(s[..|s| - 1], chars) else s
  }

  /** Stripping from the left keeps a suffix, removes only characters of
      `chars`, and stops at the first character outside `chars`. */
  lemma {:induction false} StripLeftRemovesRun(s: string, chars: set<char>)
    ensures var r := StripLeft(s, chars);
      && r == s[|s| - |r|..]
      && (r != [] ==> r[0] !in chars)
      && (forall i :: 0 <= i < |s| - |r| ==> s[i] in chars)
  {
    if s != [] && s[0] in chars {
      StripLeftRemovesRun(s[1..], chars);
    }
  }

  /** Stripping from the right keeps a prefix, removes only characters of
      `chars`, and stops at the last character outside `chars`. */
  lemma {:induction false} StripRightRemovesRun(s: string, chars: set<char>)
    ensures var r := StripRight(s, chars);
      && r == s[..|r|]
      && (r != [] ==> r[|r| - 1] !in chars)
      && (forall i :: |r| <= i < |s| ==> s[i] in chars)
  {
    if s != [] && s[|s| - 1] in chars {
      StripRightRemovesRun(s[..|s| - 1], chars);
    }
  }

  /** Python's s.strip(chars). */
  function Strip(s: string, chars: set<char>): string {
    StripRight(StripLeft(s, chars), chars)
  }

  /** Python's s.strip(): surrounding whitespace removed. */
  function Trim(s: string): string {
    Strip(s, Whitespace)
  }

  /** s.strip() is a contiguous piece of s that neither starts nor ends with
      whitespace, and everything cut off around it is whitespace. */
  lemma TrimIsInnerPiece(s: string)
    ensures var t := Trim(s);
      && (t != [] ==> t[0] !in Whitespace && t[|t| - 1] !in Whitespace)
      && var i := |s| - |StripLeft(s, Whitespace)|;
         && 0 <= i <= |s| - |t|
         && s[i..i + |t|] == t
         && (forall j :: 0 <= j < i ==> s[j] in Whitespace)
         && (forall j :: i + |t| <= j < |s| ==> s[j] in Whitespace)
  {
    var left := StripLeft(s, Whitespace);
    StripLeftRemovesRun(s, Whitespace);
    StripRightRemovesRun(left, Whitespace);
    var t := Trim(s);
    var i := |s| - |left|;
    assert s[i..i + |t|] == left[..|t|];
    forall j | i + |t| <= j < |s| ensures s[j] in Whitespace {
      assert s[j] == left[j - i];
    }
    if t != [] {
      assert t[0] == left[0];
    }
  }

  /** Text that neither starts nor ends with whitespace is its own strip(). */
  lemma TrimUntouched(s: string)
    requires s != [] ==> s[0] !in Whitespace && s[|s| - 1] !in Whitespace
    ensures Trim(s) == s
  {
  }

  /** character_test: the text is accepted when stripping every allowed
      character from both ends leaves nothing, which is the same as every
      character being allowed (the empty text included). */
  function CharacterTest(text: string, allowed: set<char>): (ok: bool)
    ensures ok <==> forall i :: 0 <= i < |text| ==> text[i] in allowed
    ensures ok <==> forall c :: c in text ==> c in allowed
  {
    var left := StripLeft(text, allowed);
    StripLeftRemovesRun(text, allowed);
    StripRightRemovesRun(left, allowed);
    assert left != [] ==> text[|text| - |left|] == left[0];
    Strip(text, allowed) == ""
  }

  predicate IsDigit(c: char) {
    '0' <= c <= '9'
  }

  /** Python's s.isdigit() for ASCII digits: false on the empty string. */
  predicate IsDigits(s: string) {
    |s| > 0 && forall i :: 0 <= i < |s| ==> IsDigit(s[i])
  }

  /** int(s) for a string of digits. */
  function DigitsValue(s: string): nat
    requires forall i :: 0 <= i < |s| ==> IsDigit(s[i])
  {
    if s == [] then 0
    else
      assert IsDigit(s[|s| - 1]);
      10 * DigitsValue(s[..|s| - 1]) + (s[|s| - 1] as int - '0' as int)
  }

  /** "%s" % n for a natural number: its decimal digits without leading zeros. */
  function Decimal(n: nat): (r: string)
    ensures IsDigits(r) && DigitsValue(r) == n
    ensures |r| > 1 ==> r[0] != '0'
  {
    var last := [('0' as int + n % 10) as char];
    if n < 10 then last
    else
      var r := Decimal(n / 10) + last;
      assert r[..|r| - 1] == Decimal(n / 10);
      r
  }

  /** ' '.join(parts), or more generally sep.join(parts). */
  function Join(parts: seq<string>, sep: string): (r: string)
    ensures parts == [] ==> r == ""
    ensures |parts| == 1 ==> r == parts[0]
  {
    if |parts| == 0 then ""
    else if |parts| == 1 then parts[0]
    else Join(parts[..|parts| - 1], sep) + sep + parts[|parts| - 1]
  }

  /** Joining keeps the first part in front: sep.join([p0, p1, ...]) is p0
      followed by sep and the join of the rest. */
  lemma {:induction false} JoinFront(parts: seq<string>, sep: string)
    requires |parts| >= 2
    ensures Join(parts, sep) == parts[0] + sep + Join(parts[1..], sep)
  {
    if |parts| > 2 {
      var init := parts[..|parts| - 1];
      JoinFront(init, sep);
      assert init[1..] == parts[1..][..|parts[1..]| - 1];
      assert init[0] == parts[0];
    } else {
      assert parts[..1] == [parts[0]];
    }
  }

  /** Python's s.split(c) for a single character c: the pieces between
      occurrences of c, empty pieces included. */
  function Split(s: string, c: char): (r: seq<string>)
    ensures |r| >= 1
    decreases |s|
  {
    if c !in s then [s]
    else
      var k := IndexOf(c, s);
      [s[..k]] + Split(s[k + 1..], c)
  }

  /** The first occurrence of c in a + b lies in b when a is free of c. */
  lemma {:induction false} IndexOfAfterFreePrefix(c: char, a: string, b: string)
    requires c !in a && c in b
    ensures IndexOf(c, a + b) == |a| + IndexOf(c, b)
  {
    if a == [] {
      assert a + b == b;
    } else {
      assert (a + b)[0] == a[0];
      assert (a + b)[1..] == a[1..] + b;
      IndexOfAfterFreePrefix(c, a[1..], b);
    }
  }

  /** A piece free of c followed by c splits off as the first piece. */
  lemma SplitFirstPiece(a: string, c: char, b: string)
    requires c !in a
    ensures Split(a + [c] + b, c) == [a] + Split(b, c)
  {
    var s := a + [c] + b;
    IndexOfAfterFreePrefix(c, a, [c] + b);
    assert s == a + ([c] + b);
    assert s[..|a|] == a;
    assert s[|a| + 1..] == b;
  }

  /** Splitting a join at its separator gives back the parts, provided no
      part contains the separator. */
  lemma {:induction false} SplitJoin(parts: seq<string>, c: char)
    requires |parts| >= 1
    requires forall k :: 0 <= k < |parts| ==> c !in parts[k]
    ensures Split(Join(parts, [c]), c) == parts
  {
    if |parts| >= 2 {
      var rest := Join(parts[1..], [c]);
      JoinFront(parts, [c]);
      SplitFirstPiece(parts[0], c, rest);
      SplitJoin(parts[1..], c);
      assert [parts[0]] + parts[1..] == parts;
    }
  }

  /** Python's `a or b` on strings: the first operand unless it is empty. */
  function PyOr(a: string, b: string): string {
    if a != "" then a else b
  }

  /** Number of occurrences of c in s. */
  function Count(c: char, s: string): (n: nat)
    ensures n <= |s|
    ensures n == 0 <==> c !in s
  {
    if s == [] then 0
    else Count(c, s[..|s| - 1]) + (if s[|s| - 1] == c then 1 else 0)
  }

  /** Index of the first occurrence of c in s. */
  function IndexOf<T(==)>(c: T, s: seq<T>): (k: nat)
    requires c in s
    ensures k < |s| && s[k] == c && c !in s[..k]
  {
    if s[0] == c then 0 else 1 + IndexOf(c, s[1..])
  }

  /** The index of the first occurrence is the one position holding c
      with no c before it. */
  lemma {:induction false} IndexOfUnique<T>(c: T, s: seq<T>, i: nat)
    requires i < |s| && s[i] == c && c !in s[..i]
    ensures IndexOf(c, s) == i
  {
    if i > 0 {
      assert s[0] in s[..i];
      assert s[1..][..i - 1] == s[1..i];
      assert forall j :: 0 <= j < i - 1 ==> s[1..i][j] == s[..i][j + 1];
      IndexOfUnique(c, s[1..], i - 1);
    }
  }

  /** A string of digits reads back as the number it spells: int("%s" % n) == n
      and "%s" % int(s) == s for a digit string without a leading zero. */
  lemma {:induction false} DecimalRoundTrip(s: string)
    requires IsDigits(s) && (|s| > 1 ==> s[0] != '0')
    ensures Decimal(DigitsValue(s)) == s
  {
    var init := s[..|s| - 1];
    var d := s[|s| - 1] as int - '0' as int;
    if |s| > 1 {
      assert init[0] == s[0];
      DecimalRoundTrip(init);
      DigitsValuePositive(init);
      assert DigitsValue(s) / 10 == DigitsValue(init);
      assert DigitsValue(s) % 10 == d;
      assert s == init + [s[|s| - 1]];
    }
  }

  /** A digit string that does not start with '0' spells a positive number. */
  lemma {:induction false} DigitsValuePositive(s: string)
    requires IsDigits(s) && s[0] != '0'
    ensures DigitsValue(s) > 0
  {
    if |s| > 1 {
      assert s[..|s| - 1][0] == s[0];
      DigitsValuePositive(s[..|s| - 1]);
    }
  }

  /** Occurrences add up over a concatenation. */
  lemma {:induction false} CountConcat(c: char, a: string, b: string)
    ensures Count(c, a + b) == Count(c, a) + Count(c, b)
  {
    if b != [] {
      assert (a + b)[..|a + b| - 1] == a + b[..|b| - 1];
      CountConcat(c, a, b[..|b| - 1]);
    } else {
      assert a + b == a;
    }
  }

  /** len() of Qt text on the Windows build of Python 2.7: the number of
      UTF-16 code units, so a character outside the Basic Multilingual
      Plane counts twice. */
  function Utf16Length(s: string): (n: nat)
    ensures |s| <= n <= 2 * |s|
    ensures (forall i :: 0 <= i < |s| ==> s[i] as int < 0x1_0000) ==> n == |s|
  {
    if s == [] then 0
    else (if s[0] as int < 0x1_0000 then 1 else 2) + Utf16Length(s[1..])
  }

  /** One character counts one code unit inside the Basic Multilingual
      Plane and two (a surrogate pair) outside it. */
  lemma Utf16LengthOfChar(c: char)
    ensures Utf16Length([c]) == if c as int < 0x1_0000 then 1 else 2
  {
    assert [c][1..] == [];
  }

  /** The length of joined text is the sum of the lengths of its parts. */
  lemma {:induction false} Utf16LengthAdditive(a: string, b: string)
    ensures Utf16Length(a + b) == Utf16Length(a) + Utf16Length(b)
  {
    if a == [] {
      assert a + b == b;
    } else {
      assert (a + b)[0] == a[0];
      assert (a + b)[1..] == a[1..] + b;
      Utf16LengthAdditive(a[1..], b);
    }
  }

  /** Four characters outside the Basic Multilingual Plane have length 8. */
  lemma Utf16LengthOfAstralText()
    ensures Utf16Length("\U{1F600}\U{1F600}\U{1F600}\U{1F600}") == 8
  {
    var e := "\U{1F600}\U{1F600}\U{1F600}\U{1F600}";
    assert e[1..][1..][1..][1..] == [];
  }
}

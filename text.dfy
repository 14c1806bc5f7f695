/** The Foundation string operations the tool-output parsers rely on, over `seq<char>`:
    character sets, `contains`, `components(separatedBy:)`, `trimmingCharacters(in:)`,
    `replacingOccurrences(of:with:)`, `lowercased()`, `capitalized` and the NSString path helpers. */
module Text {

  // ---------------------------------------------------------------------------
  // Character sets

  /** CharacterSet.newlines: U+000A through U+000D, U+0085, U+2028 and U+2029. */
  predicate IsNewline(c: char) {
    '\n' <= c <= '\r' || c == '\U{85}' || c == '\U{2028}' || c == '\U{2029}'
  }

  /** CharacterSet.whitespaces: the tab and the Unicode space separators. */
  predicate IsWhitespace(c: char) {
    c == '\t' || c == ' ' || c == '\U{A0}' || c == '\U{1680}' || '\U{2000}' <= c <= '\U{200A}'
    || c == '\U{202F}' || c == '\U{205F}' || c == '\U{3000}'
  }

  /** CharacterSet.whitespacesAndNewlines. */
  predicate IsWhitespaceOrNewline(c: char) {
    IsWhitespace(c) || IsNewline(c)
  }

  predicate IsColon(c: char) {
    c == ':'
  }

  predicate IsSlash(c: char) {
    c == '/'
  }

  // ---------------------------------------------------------------------------
  // String.contains

  predicate ContainsAt(s: string, t: string, i: int) {
    0 <= i && i + |t| <= |s| && s[i..i + |t|] == t
  }

  /** `s.contains(t)`: t occurs in s as a contiguous block. */
  predicate Contains(s: string, t: string) {
    exists i | 0 <= i <= |s| - |t| :: ContainsAt(s, t, i)
  }

  lemma ContainsInfix(a: string, t: string, b: string)
    ensures Contains(a + t + b, t)
  {
    assert (a + t + b)[|a|..|a| + |t|] == t;
    assert ContainsAt(a + t + b, t, |a|);
  }

  /** Every character of an occurring string occurs. */
  lemma ContainsChar(s: string, t: string, k: nat)
    requires Contains(s, t) && k < |t|
    ensures t[k] in s
  {
    var i :| 0 <= i <= |s| - |t| && ContainsAt(s, t, i);
    assert s[i + k] == s[i..i + |t|][k];
  }

  predicate PairAt(s: string, a: char, b: char, i: int) {
    0 <= i && i + 1 < |s| && s[i] == a && s[i + 1] == b
  }

  /** The two characters a, b stand next to each other somewhere in s. */
  predicate HasPair(s: string, a: char, b: char) {
    exists i | 0 <= i < |s| - 1 :: PairAt(s, a, b, i)
  }

  /** Every pair of neighbouring characters of an occurring string occurs. */
  lemma ContainsPair(s: string, t: string, k: nat)
    requires Contains(s, t) && k + 1 < |t|
    ensures HasPair(s, t[k], t[k + 1])
  {
    var i :| 0 <= i <= |s| - |t| && ContainsAt(s, t, i);
    assert s[i + k] == s[i..i + |t|][k] && s[i + k + 1] == s[i..i + |t|][k + 1];
    assert PairAt(s, t[k], t[k + 1], i + k);
  }

  lemma NoPairInConcat(a: string, b: string, x: char, y: char)
    requires !HasPair(a, x, y) && !HasPair(b, x, y)
    requires a == [] || b == [] || !(a[|a| - 1] == x && b[0] == y)
    ensures !HasPair(a + b, x, y)
  {
    if HasPair(a + b, x, y) {
      var i :| 0 <= i < |a + b| - 1 && PairAt(a + b, x, y, i);
      if i + 1 < |a| {
        assert PairAt(a, x, y, i);
      } else if i >= |a| {
        assert PairAt(b, x, y, i - |a|);
      }
    }
  }

  // ---------------------------------------------------------------------------
  // components(separatedBy:) with a character set

  /** Every separator character ends a component, so neighbouring separators give an
      empty component between them, and the empty string gives one empty component. */
  function Split(s: string, isSep: char -> bool): (parts: seq<string>)
    ensures |parts| >= 1
    ensures forall k, c :: 0 <= k < |parts| && c in parts[k] ==> !isSep(c)
  {
    if s == [] then [[]]
    else
      var rest := Split(s[1..], isSep);
      if isSep(s[0]) then [[]] + rest
      else [[s[0]] + rest[0]] + rest[1..]
  }

  /** Text without a separator is a single component. */
  lemma {:induction false} SplitWithoutSeparator(s: string, isSep: char -> bool)
    requires forall i :: 0 <= i < |s| ==> !isSep(s[i])
    ensures Split(s, isSep) == [s]
  {
    if s != [] {
      SplitWithoutSeparator(s[1..], isSep);
      assert [s[0]] + s[1..] == s;
    }
  }

  /** The first component runs up to the first separator; the rest is split again. */
  lemma {:induction false} SplitAtSeparator(a: string, c: char, b: string, isSep: char -> bool)
    requires forall i :: 0 <= i < |a| ==> !isSep(a[i])
    requires isSep(c)
    ensures Split(a + [c] + b, isSep) == [a] + Split(b, isSep)
  {
    if a == [] {
      assert a + [c] + b == [c] + b;
      assert ([c] + b)[1..] == b;
    } else {
      SplitAtSeparator(a[1..], c, b, isSep);
      assert (a + [c] + b)[1..] == a[1..] + [c] + b;
      assert [a[0]] + a[1..] == a;
    }
  }

  /** A separator anywhere gives at least two components. */
  lemma {:induction false} SplitHasSecondPart(s: string, isSep: char -> bool, i: nat)
    requires i < |s| && isSep(s[i])
    ensures |Split(s, isSep)| >= 2
  {
    if i > 0 && !isSep(s[0]) {
      SplitHasSecondPart(s[1..], isSep, i - 1);
    }
  }

  /** `.filter { !$0.isEmpty }` */
  function NonEmpty(parts: seq<string>): (r: seq<string>)
    ensures |r| <= |parts|
    ensures forall p :: p in r <==> p in parts && p != []
    ensures (forall k :: 0 <= k < |parts| ==> parts[k] != []) ==> r == parts
  {
    if parts == [] then []
    else
      assert forall k :: 1 <= k < |parts| ==> parts[1..][k - 1] == parts[k];
      (if parts[0] == [] then [] else [parts[0]]) + NonEmpty(parts[1..])
  }

  /** The filter works piece by piece, so it keeps the order and the repeats of its input. */
  lemma {:induction false} NonEmptyAppend(a: seq<string>, b: seq<string>)
    ensures NonEmpty(a + b) == NonEmpty(a) + NonEmpty(b)
  {
    if a != [] {
      assert (a + b)[0] == a[0] && (a + b)[1..] == a[1..] + b;
      NonEmptyAppend(a[1..], b);
    } else {
      assert a + b == b;
    }
  }

  /** `components(separatedBy: .newlines)` */
  function Lines(s: string): (lines: seq<string>)
    ensures forall k, c :: 0 <= k < |lines| && c in lines[k] ==> !IsNewline(c)
  {
    Split(s, IsNewline)
  }

  // ---------------------------------------------------------------------------
  // trimmingCharacters(in:)

  function TrimStart(s: string, drop: char -> bool): (r: string)
    ensures |r| <= |s| && r == s[|s| - |r|..]
    ensures forall i :: 0 <= i < |s| - |r| ==> drop(s[i])
    ensures r == [] || !drop(r[0])
  {
    if s == [] || !drop(s[0]) then s else TrimStart(s[1..], drop)
  }

  function TrimEnd(s: string, drop: char -> bool): (r: string)
    ensures |r| <= |s| && r == s[..|r|]
    ensures forall i :: |r| <= i < |s| ==> drop(s[i])
    ensures r == [] || !drop(r[|r| - 1])
  {
    if s == [] || !drop(s[|s| - 1]) then s else TrimEnd(s[..|s| - 1], drop)
  }

  /** r is s[i..j], and everything of s outside that piece is a dropped character. */
  predicate TrimmedAt(s: string, drop: char -> bool, r: string, i: int, j: int) {
    0 <= i <= j <= |s| && r == s[i..j] && forall k | 0 <= k < |s| :: (k < i || j <= k) ==> drop(s[k])
  }

  /** Drops the leading and the trailing characters of the set, and nothing in between. */
  function Trim(s: string, drop: char -> bool): (r: string)
    ensures |r| <= |s|
    ensures r == [] || (!drop(r[0]) && !drop(r[|r| - 1]))
    ensures (forall i :: 0 <= i < |s| ==> !drop(s[i])) ==> r == s
  {
    TrimEnd(TrimStart(s, drop), drop)
  }

  /** The trimmed text is a piece of s, and only dropped characters lie outside it. */
  lemma TrimIsPiece(s: string, drop: char -> bool)
    ensures exists i, j :: TrimmedAt(s, drop, Trim(s, drop), i, j)
  {
    var t := TrimStart(s, drop);
    var r := TrimEnd(t, drop);
    assert r == Trim(s, drop);
    PieceOfPiece(s, drop, t, r);
    assert TrimmedAt(s, drop, r, |s| - |t|, |s| - |t| + |r|);
  }

  /** A suffix t of s after dropped characters, and a prefix r of t before dropped ones. */
  lemma PieceOfPiece(s: string, drop: char -> bool, t: string, r: string)
    requires |t| <= |s| && t == s[|s| - |t|..] && forall k :: 0 <= k < |s| - |t| ==> drop(s[k])
    requires |r| <= |t| && r == t[..|r|] && forall k :: |r| <= k < |t| ==> drop(t[k])
    ensures TrimmedAt(s, drop, r, |s| - |t|, |s| - |t| + |r|)
  {
    var i := |s| - |t|;
    var j := i + |r|;
    assert r == s[i..j];
    forall k | 0 <= k < |s| && (k < i || j <= k)
      ensures drop(s[k])
    {
      if j <= k {
        assert t[k - i] == s[k];
      }
    }
  }

  // ---------------------------------------------------------------------------
  // replacingOccurrences(of:with:), lowercased(), capitalized

  /** Replaces every occurrence of the single character c by rep. */
  function ReplaceChar(s: string, c: char, rep: string): (r: string)
    ensures c !in s ==> r == s
  {
    if s == [] then [] else (if s[0] == c then rep else [s[0]]) + ReplaceChar(s[1..], c, rep)
  }

  lemma {:induction false} ReplaceCharAppend(a: string, b: string, c: char, rep: string)
    ensures ReplaceChar(a + b, c, rep) == ReplaceChar(a, c, rep) + ReplaceChar(b, c, rep)
  {
    if a != [] {
      var head := if a[0] == c then rep else [a[0]];
      assert (a + b)[0] == a[0] && (a + b)[1..] == a[1..] + b;
      assert ReplaceChar(a + b, c, rep) == head + ReplaceChar(a[1..] + b, c, rep);
      ReplaceCharAppend(a[1..], b, c, rep);
      assert ReplaceChar(a, c, rep) == head + ReplaceChar(a[1..], c, rep);
    } else {
      assert a + b == b;
    }
  }

  function LowerChar(c: char): char {
    if 'A' <= c <= 'Z' then (c as int - 'A' as int + 'a' as int) as char else c
  }

  function UpperChar(c: char): char {
    if 'a' <= c <= 'z' then (c as int - 'a' as int + 'A' as int) as char else c
  }

  /** `lowercased()`, for the ASCII letters. */
  function Lower(s: string): (r: string)
    ensures |r| == |s|
    ensures forall i :: 0 <= i < |s| ==> r[i] == LowerChar(s[i])
  {
    if s == [] then [] else [LowerChar(s[0])] + Lower(s[1..])
  }

  lemma LowerAppend(a: string, b: string)
    ensures Lower(a + b) == Lower(a) + Lower(b)
  {
  }

  /** `capitalized` of one word: the first letter upper case, the rest lower case (ASCII). */
  function CapitalizedWord(w: string): (r: string)
    ensures |r| == |w|
  {
    if w == [] then [] else [UpperChar(w[0])] + Lower(w[1..])
  }

  // ---------------------------------------------------------------------------
  // NSString path helpers

  /** The part of s after its last occurrence of c (all of s when c does not occur). */
  function AfterLast(s: string, c: char): (r: string)
    ensures |r| <= |s| && r == s[|s| - |r|..]
    ensures c !in r
    ensures |r| < |s| ==> s[|s| - |r| - 1] == c
  {
    if s == [] || s[|s| - 1] == c then []
    else
      var r := AfterLast(s[..|s| - 1], c);
      assert s[..|s| - 1][|s| - 1 - |r|..] + [s[|s| - 1]] == s[|s| - 1 - |r|..];
      r + [s[|s| - 1]]
  }

  lemma {:induction false} AfterLastOfSuffix(s: string, c: char, y: string)
    requires c !in y
    ensures AfterLast(s + [c] + y, c) == y
  {
    var w := s + [c] + y;
    if y != [] {
      assert w[..|w| - 1] == s + [c] + y[..|y| - 1];
      AfterLastOfSuffix(s, c, y[..|y| - 1]);
      assert y[..|y| - 1] + [y[|y| - 1]] == y;
    }
  }

  /** `lastPathComponent`: trailing slashes are ignored, a path of slashes only gives "/". */
  function LastPathComponent(p: string): (r: string)
    ensures r == [] <==> p == []
  {
    var q := TrimEnd(p, IsSlash);
    if q == [] then (if p == [] then [] else "/") else
      var r := AfterLast(q, '/');
      assert q[|q| - 1] in r;
      r
  }

  /** The last component of dir + "/" + name is name, for a name without a slash. */
  lemma LastPathComponentOfChild(dir: string, name: string)
    requires name != [] && '/' !in name
    ensures LastPathComponent(dir + "/" + name) == name
  {
    var p := dir + "/" + name;
    assert p[|p| - 1] == name[|name| - 1];
    assert TrimEnd(p, IsSlash) == p;
    AfterLastOfSuffix(dir, '/', name);
  }

  lemma {:induction false} AfterLastAbsent(s: string, c: char)
    requires c !in s
    ensures AfterLast(s, c) == s
  {
    if s != [] {
      var init, last := s[..|s| - 1], s[|s| - 1];
      assert c !in init by {
        forall i | 0 <= i < |init|
          ensures init[i] != c
        {
          assert init[i] == s[i];
        }
      }
      assert last != c by {
        assert s[|s| - 1] in s;
      }
      AfterLastAbsent(init, c);
      assert AfterLast(s, c) == AfterLast(init, c) + [last];
      assert init + [last] == s;
    }
  }

  /** A name without a slash is its own last component. */
  lemma LastPathComponentOfName(name: string)
    requires name != [] && '/' !in name
    ensures LastPathComponent(name) == name
  {
    assert name[|name| - 1] in name;
    assert TrimEnd(name, IsSlash) == name;
    AfterLastAbsent(name, '/');
  }

  /** `pathExtension`: the text after the last dot of the last path component; empty when
      the component has no dot, or its only dot is its first character. */
  function PathExtension(p: string): (r: string)
    ensures '.' !in r
    ensures r != [] ==> '.' in LastPathComponent(p)
  {
    var name := LastPathComponent(p);
    var ext := AfterLast(name, '.');
    if |ext| + 1 >= |name| then [] else
      var dot := |name| - |ext| - 1;
      assert name[dot] == '.' && name[dot] in name;
      ext
  }

  /** The extension of stem.ext, for a stem and an extension without slashes and a stem that
      is not empty, is ext. */
  lemma PathExtensionOfName(stem: string, ext: string)
    requires stem != [] && '/' !in stem && '/' !in ext && '.' !in ext
    ensures PathExtension(stem + "." + ext) == ext
  {
    var name := stem + "." + ext;
    assert '/' !in name by {
      forall i | 0 <= i < |name|
        ensures name[i] != '/'
      {
        if i < |stem| {
          assert name[i] == stem[i];
        } else if i > |stem| {
          assert name[i] == ext[i - |stem| - 1];
        }
      }
    }
    LastPathComponentOfName(name);
    assert stem + ['.'] + ext == name;
    AfterLastOfSuffix(stem, '.', ext);
  }

  // ---------------------------------------------------------------------------
  // String interpolation of an Int

  function DigitChar(d: int): (c: char)
    requires 0 <= d < 10
    ensures '0' <= c <= '9' && c as int - '0' as int == d
  {
    ('0' as int + d) as char
  }

  /** The decimal digits of n, most significant first, with no leading zero. */
  function NaturalDecimal(n: nat): (r: string)
    ensures r != [] && (forall i :: 0 <= i < |r| ==> '0' <= r[i] <= '9')
    ensures |r| > 1 ==> r[0] != '0'
    decreases n
  {
    if n < 10 then [DigitChar(n)] else NaturalDecimal(n / 10) + [DigitChar(n % 10)]
  }

  /** `"\(n)"`: the digits of |n|, behind a minus sign when n is negative. */
  function Decimal(n: int): (r: string)
    ensures r != [] && '/' !in r
    ensures n >= 0 ==> r == NaturalDecimal(n)
    ensures n < 0 ==> r == "-" + NaturalDecimal(-n)
  {
    var r := if n < 0 then "-" + NaturalDecimal(-n) else NaturalDecimal(n);
    assert forall i :: 0 <= i < |r| ==> r[i] == '-' || '0' <= r[i] <= '9';
    r
  }

  /** The value of a string of decimal digits. */
  function DigitsValue(s: string): int {
    if s == [] then 0 else DigitsValue(s[..|s| - 1]) * 10 + (s[|s| - 1] as int - '0' as int)
  }

  /** Reading the digits back gives the number. */
  lemma {:induction false} NaturalDecimalReadsBack(n: nat)
    ensures DigitsValue(NaturalDecimal(n)) == n
    decreases n
  {
    if n >= 10 {
      var r := NaturalDecimal(n);
      assert r[..|r| - 1] == NaturalDecimal(n / 10);
      NaturalDecimalReadsBack(n / 10);
    }
  }

  lemma NaturalDecimalInjective(m: nat, n: nat)
    requires NaturalDecimal(m) == NaturalDecimal(n)
    ensures m == n
  {
    NaturalDecimalReadsBack(m);
    NaturalDecimalReadsBack(n);
  }

  /** Different numbers print differently. */
  lemma DecimalInjective(m: int, n: int)
    requires Decimal(m) == Decimal(n)
    ensures m == n
  {
    var r := Decimal(m);
    assert (r[0] == '-') == (m < 0);
    assert (Decimal(n)[0] == '-') == (n < 0);
    if m < 0 {
      assert r[1..] == NaturalDecimal(-m);
      assert Decimal(n)[1..] == NaturalDecimal(-n);
      NaturalDecimalInjective(-m, -n);
    } else {
      NaturalDecimalInjective(m, n);
    }
  }

  /** Around a character that occurs in neither side, the two sides can be told apart. */
  lemma SplitAtAbsent(a: string, b: string, a': string, b': string, c: char)
    requires c !in a && c !in a'
    requires a + [c] + b == a' + [c] + b'
    ensures a == a' && b == b'
  {
    var s := a + [c] + b;
    assert s[|a|] == c && s[|a'|] == c;
    assert forall i :: 0 <= i < |a| ==> s[i] == a[i] != c;
    assert forall i :: 0 <= i < |a'| ==> s[i] == a'[i] != c;
    assert a == s[..|a|] && a' == s[..|a'|];
    assert b == s[|a| + 1..] && b' == s[|a'| + 1..];
  }

  /** The head, the middle and the tail of a concatenation, cut out again. */
  lemma Affixes(head: string, x: string, tail: string)
    ensures var s := head + x + tail;
      && |s| == |head| + |x| + |tail|
      && s[..|head|] == head && s[|s| - |tail|..] == tail && s[|head|..|s| - |tail|] == x
  {
  }

  /** The same text between the same head and tail. */
  lemma BetweenAffixes(head: string, x: string, y: string, tail: string)
    requires head + x + tail == head + y + tail
    ensures x == y
  {
    var s := head + x + tail;
    assert x == s[|head|..|s| - |tail|];
    assert y == (head + y + tail)[|head|..|s| - |tail|];
  }

}

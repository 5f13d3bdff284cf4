/**
 * The string primitives the driver relies on: ordinal case folding, splitting
 * on a separator, prefix and suffix tests, removal of a substring, padding,
 * ordinal comparison and the 32-bit integer parser used for collection
 * indices.
 */
module Text {
  import opened Common

  // ---------------------------------------------------------------------------
  // Case folding
  // ---------------------------------------------------------------------------

  /** Upper-cases one character the way an ordinal case-insensitive comparer does (ASCII letters). */
  function Fold(c: char): char {
    if 'a' <= c <= 'z' then (c as int - 32) as char else c
  }

  function FoldString(s: string): string {
    seq(|s|, i requires 0 <= i < |s| => Fold(s[i]))
  }

  /** The single case-insensitive name equality used for properties, registry keys, types and enum members. */
  predicate SameName(a: string, b: string) {
    FoldString(a) == FoldString(b)
  }

  lemma SameNameIsEquivalence(a: string, b: string, c: string)
    ensures SameName(a, a)
    ensures SameName(a, b) ==> SameName(b, a)
    ensures SameName(a, b) && SameName(b, c) ==> SameName(a, c)
  {
  }

  lemma {:induction false} FoldStringIdempotent(s: string)
    ensures FoldString(FoldString(s)) == FoldString(s)
    ensures SameName(FoldString(s), s)
  {
    var f := FoldString(s);
    forall i | 0 <= i < |s|
      ensures FoldString(f)[i] == f[i]
    {
      assert f[i] == Fold(s[i]);
    }
  }

  // ---------------------------------------------------------------------------
  // Whitespace
  // ---------------------------------------------------------------------------

  /** The characters that count as white space for string.IsNullOrWhiteSpace. */
  predicate IsWhiteSpace(c: char) {
    c == ' ' || ('\t' <= c <= '\r') || c == '\U{85}' || c == '\U{A0}' || c == '\U{1680}'
    || ('\U{2000}' <= c <= '\U{200A}') || c == '\U{2028}' || c == '\U{2029}'
    || c == '\U{202F}' || c == '\U{205F}' || c == '\U{3000}'
  }

  predicate IsNullOrWhiteSpace(s: Option<string>) {
    s.None? || forall i :: 0 <= i < |s.value| ==> IsWhiteSpace(s.value[i])
  }

  function OrEmpty(s: Option<string>): string {
    s.GetOr("")
  }

  /** String.TrimStart(): s without its leading white space. */
  function TrimStart(s: string): (r: string)
    ensures |r| <= |s| && r == s[|s| - |r|..]
    ensures forall i :: 0 <= i < |s| - |r| ==> IsWhiteSpace(s[i])
    ensures r != [] ==> !IsWhiteSpace(r[0])
  {
    if s != [] && IsWhiteSpace(s[0]) then TrimStart(s[1..]) else s
  }

  /** String.TrimEnd(): s without its trailing white space. */
  function TrimEnd(s: string): (r: string)
    ensures |r| <= |s| && r == s[..|r|]
    ensures forall i :: |r| <= i < |s| ==> IsWhiteSpace(s[i])
    ensures r != [] ==> !IsWhiteSpace(r[|r| - 1])
  {
    if s != [] && IsWhiteSpace(s[|s| - 1]) then TrimEnd(s[..|s| - 1]) else s
  }

  /**
   * String.Trim(): the longest middle part of s that neither starts nor ends
   * with white space; it is empty exactly when s is all white space.
   */
  function Trim(s: string): (r: string)
    ensures |r| <= |s|
    ensures r == [] <==> IsNullOrWhiteSpace(Some(s))
    ensures r != [] ==> !IsWhiteSpace(r[0]) && !IsWhiteSpace(r[|r| - 1])
  {
    TrimEnd(TrimStart(s))
  }

  /** Trimming twice is trimming once. */
  lemma TrimIdempotent(s: string)
    ensures Trim(Trim(s)) == Trim(s)
  {
    var r := Trim(s);
    assert TrimStart(r) == r;
    assert TrimEnd(r) == r;
  }

  // ---------------------------------------------------------------------------
  // Searching and splitting
  // ---------------------------------------------------------------------------

  /** Position of the first occurrence of c in s, or -1. */
  function IndexOf(s: string, c: char): (k: int)
    ensures -1 <= k < |s|
    ensures k == -1 <==> c !in s
    ensures 0 <= k ==> s[k] == c && c !in s[..k]
  {
    if s == [] then -1
    else if s[0] == c then 0
    else
      var k := IndexOf(s[1..], c);
      if k < 0 then -1 else k + 1
  }

  /** Every piece between separators, empty pieces included (string.Split with one separator). */
  function Split(s: string, sep: char): (parts: seq<string>)
    ensures |parts| >= 1
  {
    if s == [] then [""]
    else
      var rest := Split(s[1..], sep);
      if s[0] == sep then [""] + rest else [[s[0]] + rest[0]] + rest[1..]
  }

  function Join(parts: seq<string>, sep: char): string
    requires |parts| >= 1
  {
    if |parts| == 1 then parts[0] else parts[0] + [sep] + Join(parts[1..], sep)
  }

  /** Splitting and joining again gives back the original string. */
  lemma {:induction false} JoinSplit(s: string, sep: char)
    ensures Join(Split(s, sep), sep) == s
  {
    if s != [] {
      var rest := Split(s[1..], sep);
      JoinSplit(s[1..], sep);
      if s[0] != sep {
        if |rest| == 1 {
          assert Split(s, sep) == [[s[0]] + rest[0]];
        } else {
          assert Split(s, sep)[1..] == rest[1..];
          assert Join(rest, sep) == rest[0] + [sep] + Join(rest[1..], sep);
        }
      }
    }
  }

  /** Joining pieces that hold no separator and splitting again gives back the pieces. */
  lemma {:induction false} SplitJoin(parts: seq<string>, sep: char)
    requires |parts| >= 1
    requires forall i :: 0 <= i < |parts| ==> sep !in parts[i]
    ensures Split(Join(parts, sep), sep) == parts
    decreases |parts|
  {
    SplitWithoutSeparator(parts[0], sep);
    if |parts| > 1 {
      SplitJoin(parts[1..], sep);
      SplitConcat(parts[0], Join(parts[1..], sep), sep);
      assert [parts[0]] + parts[1..] == parts;
    }
  }

  /** No piece of a split contains the separator. */
  lemma {:induction false} SplitPiecesLackSeparator(s: string, sep: char)
    ensures forall i :: 0 <= i < |Split(s, sep)| ==> sep !in Split(s, sep)[i]
  {
    if s != [] {
      SplitPiecesLackSeparator(s[1..], sep);
    }
  }

  /** A string without the separator is a single piece. */
  lemma {:induction false} SplitWithoutSeparator(s: string, sep: char)
    requires sep !in s
    ensures Split(s, sep) == [s]
  {
    if s != [] {
      SplitWithoutSeparator(s[1..], sep);
      assert [s[0]] + s[1..] == s;
    }
  }

  /** Splitting `a`, a separator, then `b` gives the pieces of `a` followed by those of `b`. */
  lemma {:induction false} SplitConcat(a: string, b: string, sep: char)
    ensures Split(a + [sep] + b, sep) == Split(a, sep) + Split(b, sep)
    decreases |a|
  {
    if a == [] {
      assert a + [sep] + b == [sep] + b;
      SplitCons(sep, b, sep);
    } else {
      SplitConcat(a[1..], b, sep);
      SplitConcatStep(a[0], a[1..], b, sep);
      assert [a[0]] + a[1..] == a;
    }
  }

  lemma SplitConcatStep(c: char, t: string, b: string, sep: char)
    requires Split(t + [sep] + b, sep) == Split(t, sep) + Split(b, sep)
    ensures Split([c] + t + [sep] + b, sep) == Split([c] + t, sep) + Split(b, sep)
  {
    var x := t + [sep] + b;
    var rt, rb := Split(t, sep), Split(b, sep);
    assert Split([c] + t + [sep] + b, sep) == Split([c] + x, sep) by {
      assert [c] + t + [sep] + b == [c] + x;
    }
    if c == sep {
      assert Split([c] + x, sep) == [""] + rt + rb by { SplitCons(c, x, sep); }
      assert Split([c] + t, sep) == [""] + rt by { SplitCons(c, t, sep); }
    } else {
      assert Split([c] + x, sep) == [[c] + rt[0]] + rt[1..] + rb by {
        SplitCons(c, x, sep);
        assert (rt + rb)[0] == rt[0];
        ConsHead(rt, rb, [c] + rt[0]);
      }
      assert Split([c] + t, sep) == [[c] + rt[0]] + rt[1..] by { SplitCons(c, t, sep); }
    }
  }

  /** Replacing the head of a non-empty sequence commutes with appending. */
  lemma ConsHead<T>(xs: seq<T>, ys: seq<T>, y: T)
    requires xs != []
    ensures [y] + (xs + ys)[1..] == ([y] + xs[1..]) + ys
  {
    assert (xs + ys)[1..] == xs[1..] + ys;
  }

  /** One step of Split: a separator opens a new piece, any other character joins the first one. */
  lemma SplitCons(c: char, t: string, sep: char)
    ensures Split([c] + t, sep) ==
      if c == sep then [""] + Split(t, sep) else [[c] + Split(t, sep)[0]] + Split(t, sep)[1..]
  {
    assert ([c] + t)[1..] == t;
  }

  /** The pieces that are not empty (StringSplitOptions.RemoveEmptyEntries). */
  function NonEmpty(parts: seq<string>): (r: seq<string>)
    ensures forall i :: 0 <= i < |r| ==> r[i] != []
  {
    if parts == [] then []
    else (if parts[0] == [] then [] else [parts[0]]) + NonEmpty(parts[1..])
  }

  function SplitNonEmpty(s: string, sep: char): seq<string> {
    NonEmpty(Split(s, sep))
  }

  predicate OnlySeparators(s: string, sep: char) {
    forall i :: 0 <= i < |s| ==> s[i] == sep
  }

  /** Removing empty entries leaves nothing exactly when the string is made of separators only. */
  lemma {:induction false} SplitNonEmptyIsEmptyIff(s: string, sep: char)
    ensures SplitNonEmpty(s, sep) == [] <==> OnlySeparators(s, sep)
  {
    if s != [] {
      SplitNonEmptyIsEmptyIff(s[1..], sep);
      var rest := Split(s[1..], sep);
      if s[0] == sep {
        assert Split(s, sep) == [""] + rest;
        assert ([""] + rest)[1..] == rest;
        assert SplitNonEmpty(s, sep) == SplitNonEmpty(s[1..], sep);
        OnlySeparatorsTail(s, sep);
      } else {
        var parts := [[s[0]] + rest[0]] + rest[1..];
        assert Split(s, sep) == parts;
        assert parts[0] != [];
        assert NonEmpty(parts) == [parts[0]] + NonEmpty(parts[1..]);
        assert !OnlySeparators(s, sep);
      }
    } else {
      assert Split(s, sep) == [""];
      assert NonEmpty([""]) == [] + NonEmpty([""][1..]);
    }
  }

  lemma OnlySeparatorsTail(s: string, sep: char)
    requires s != [] && s[0] == sep
    ensures OnlySeparators(s, sep) <==> OnlySeparators(s[1..], sep)
  {
    if OnlySeparators(s[1..], sep) {
      forall i | 0 <= i < |s| ensures s[i] == sep {
        if i > 0 { assert s[i] == s[1..][i - 1]; }
      }
    }
  }

  lemma NonEmptyCons(parts: seq<string>)
    requires parts != []
    ensures NonEmpty(parts) == (if parts[0] == [] then [] else [parts[0]]) + NonEmpty(parts[1..])
  {
  }

  /** A leading separator never changes the non-empty pieces. */
  lemma {:induction false} SplitNonEmptyLeadingSeparator(s: string, sep: char)
    ensures SplitNonEmpty([sep] + s, sep) == SplitNonEmpty(s, sep)
  {
    var t := [sep] + s;
    assert t[1..] == s;
    assert Split(t, sep) == [""] + Split(s, sep);
    assert ([""] + Split(s, sep))[1..] == Split(s, sep);
  }

  /**
   * Split at the first separator only (string.Split with a count of 2): the
   * text before it, and the text after it or "" when there is none.
   */
  function SplitOnce(s: string, sep: char): (r: (string, string))
    ensures sep !in r.0
    ensures sep in s ==> r.0 + [sep] + r.1 == s
    ensures sep !in s ==> r == (s, "")
  {
    var k := IndexOf(s, sep);
    if k < 0 then (s, "")
    else
      assert s[..k] + [sep] + s[k + 1..] == s by {
        assert s == s[..k] + [s[k]] + s[k + 1..];
      }
      (s[..k], s[k + 1..])
  }

  /** The first half of a split at the first separator is the first piece of the full split. */
  lemma SplitOnceHeadIsFirstPiece(s: string, sep: char)
    ensures SplitOnce(s, sep).0 == Split(s, sep)[0]
  {
    FirstPiece(s, sep);
  }

  /** The first piece of a split runs up to the first separator, or is the whole text. */
  lemma {:induction false} FirstPiece(s: string, sep: char)
    ensures Split(s, sep)[0] == if IndexOf(s, sep) < 0 then s else s[..IndexOf(s, sep)]
  {
    if s != [] && s[0] != sep {
      var t := s[1..];
      FirstPiece(t, sep);
      var rest := Split(t, sep);
      assert Split(s, sep)[0] == [s[0]] + rest[0];
      var k := IndexOf(t, sep);
      if k < 0 {
        assert [s[0]] + t == s;
      } else {
        assert IndexOf(s, sep) == k + 1;
        assert [s[0]] + t[..k] == s[..k + 1];
      }
    }
  }

  // ---------------------------------------------------------------------------
  // Prefixes, suffixes, substring removal and padding
  // ---------------------------------------------------------------------------

  predicate StartsWith(s: string, prefix: string) {
    |prefix| <= |s| && s[..|prefix|] == prefix
  }

  predicate EndsWith(s: string, suffix: string) {
    |suffix| <= |s| && s[|s| - |suffix|..] == suffix
  }

  /** Ordinal string.Replace(pattern, ""): leftmost, non-overlapping occurrences are dropped. */
  function RemoveAll(s: string, pattern: string): (r: string)
    requires pattern != []
    ensures |r| <= |s|
    ensures forall c :: c in r ==> c in s
    decreases |s|
  {
    if |s| < |pattern| then s
    else if s[..|pattern|] == pattern then RemoveAll(s[|pattern|..], pattern)
    else [s[0]] + RemoveAll(s[1..], pattern)
  }

  predicate OccursAt(s: string, pattern: string, i: nat) {
    i + |pattern| <= |s| && s[i..i + |pattern|] == pattern
  }

  ghost predicate Occurs(s: string, pattern: string) {
    exists i: nat :: OccursAt(s, pattern, i)
  }

  /** Removal changes nothing when the pattern does not occur. */
  lemma {:induction false} RemoveAllAbsent(s: string, pattern: string)
    requires pattern != []
    requires !Occurs(s, pattern)
    ensures RemoveAll(s, pattern) == s
    decreases |s|
  {
    if |s| >= |pattern| {
      assert !OccursAt(s, pattern, 0);
      assert !Occurs(s[1..], pattern) by {
        forall i: nat | i + |pattern| <= |s| - 1
          ensures !OccursAt(s[1..], pattern, i)
        {
          assert s[1..][i..i + |pattern|] == s[i + 1..i + 1 + |pattern|];
          assert !OccursAt(s, pattern, i + 1);
        }
      }
      RemoveAllAbsent(s[1..], pattern);
    }
  }

  function Spaces(n: nat): (r: string)
    ensures |r| == n && forall i :: 0 <= i < n ==> r[i] == ' '
  {
    seq(n, _ => ' ')
  }

  /** Left-aligns s in a field of the given width ({x,-w} in a format string); never truncates. */
  function PadRight(s: string, width: nat): (r: string)
    ensures |r| == if |s| < width then width else |s|
    ensures r[..|s|] == s
  {
    if |s| < width then s + Spaces(width - |s|) else s
  }

  function Repeat(c: char, n: nat): string {
    seq(n, _ => c)
  }

  // ---------------------------------------------------------------------------
  // Ordinal ordering (used to sort property names)
  // ---------------------------------------------------------------------------

  predicate OrdinalLe(a: string, b: string)
    decreases |a|
  {
    a == [] || (b != [] && (a[0] < b[0] || (a[0] == b[0] && OrdinalLe(a[1..], b[1..]))))
  }

  lemma {:induction false} OrdinalLeTotal(a: string, b: string)
    ensures OrdinalLe(a, b) || OrdinalLe(b, a)
    decreases |a|
  {
    if a != [] && b != [] && a[0] == b[0] {
      OrdinalLeTotal(a[1..], b[1..]);
    }
  }

  lemma {:induction false} OrdinalLeTransitive(a: string, b: string, c: string)
    requires OrdinalLe(a, b) && OrdinalLe(b, c)
    ensures OrdinalLe(a, c)
    decreases |a|
  {
    if a != [] && a[0] == b[0] && b[0] == c[0] {
      OrdinalLeTransitive(a[1..], b[1..], c[1..]);
    }
  }

  // ---------------------------------------------------------------------------
  // Int32 parsing and formatting
  // ---------------------------------------------------------------------------

  const MinInt32: int := -0x8000_0000
  const MaxInt32: int := 0x7FFF_FFFF

  /** The blanks int.Parse skips around a number: tab to carriage return, and space. */
  predicate IsNumberBlank(c: char) {
    c == ' ' || ('\t' <= c <= '\r')
  }

  predicate IsDigit(c: char) {
    '0' <= c <= '9'
  }

  function TrimStartBlanks(s: string): (r: string)
    ensures |r| <= |s|
  {
    if s != [] && IsNumberBlank(s[0]) then TrimStartBlanks(s[1..]) else s
  }

  function TrimEndBlanks(s: string): (r: string)
    ensures |r| <= |s|
  {
    if s != [] && IsNumberBlank(s[|s| - 1]) then TrimEndBlanks(s[..|s| - 1]) else s
  }

  function DigitsValue(d: string): nat
    requires forall i :: 0 <= i < |d| ==> IsDigit(d[i])
  {
    if d == [] then 0
    else
      assert IsDigit(d[|d| - 1]);
      DigitsValue(d[..|d| - 1]) * 10 + (d[|d| - 1] as int - '0' as int)
  }

  predicate IsDigits(d: string) {
    d != [] && forall i :: 0 <= i < |d| ==> IsDigit(d[i])
  }

  /** Separates an optional leading sign from the rest; true means negative. */
  function SplitSign(t: string): (bool, string) {
    if t != [] && (t[0] == '-' || t[0] == '+') then (t[0] == '-', t[1..]) else (false, t)
  }

  /** int.Parse with the default number style: optional blanks, an optional sign, decimal digits, Int32 range. */
  function ParseInt32(s: string): (r: Option<int>)
    ensures r.Some? ==> MinInt32 <= r.value <= MaxInt32
  {
    var (negative, digits) := SplitSign(TrimEndBlanks(TrimStartBlanks(s)));
    if !IsDigits(digits) then None
    else
      var n: int := DigitsValue(digits);
      var v: int := if negative then -n else n;
      if MinInt32 <= v <= MaxInt32 then Some(v) else None
  }

  function DigitChar(d: nat): char
    requires d < 10
  {
    ('0' as int + d) as char
  }

  function ShowNat(n: nat): (r: string)
    ensures r != [] && forall i :: 0 <= i < |r| ==> IsDigit(r[i])
  {
    if n < 10 then [DigitChar(n)] else ShowNat(n / 10) + [DigitChar(n % 10)]
  }

  /** Decimal text of an integer, as int.ToString() writes it. */
  function ShowInt(n: int): string {
    if n < 0 then "-" + ShowNat(-n) else ShowNat(n)
  }

  lemma {:induction false} DigitsOfShowNat(n: nat)
    ensures DigitsValue(ShowNat(n)) == n
  {
    if n >= 10 {
      DigitsOfShowNat(n / 10);
      var r := ShowNat(n);
      assert r[..|r| - 1] == ShowNat(n / 10);
    }
  }

  /** Formatting an Int32 and parsing it back gives the same number. */
  lemma ParseShowInt(n: int)
    requires MinInt32 <= n <= MaxInt32
    ensures ParseInt32(ShowInt(n)) == Some(n)
  {
    var s := ShowInt(n);
    var digits := ShowNat(if n < 0 then -n else n);
    DigitsOfShowNat(if n < 0 then -n else n);
    assert TrimStartBlanks(s) == s;
    assert TrimEndBlanks(s) == s;
    if n < 0 {
      assert s[1..] == digits;
    }
    assert SplitSign(s).1 == digits;
  }

  /** A text holding a lower-case letter anywhere never parses as a number. */
  lemma ParseRejectsLetters(s: string, i: nat)
    requires i < |s| && 'a' <= s[i] <= 'z'
    ensures ParseInt32(s) == None
  {
    var u := TrimStartBlanks(s);
    var t := TrimEndBlanks(u);
    var j := LetterInTrimStart(s, i);
    var k := LetterInTrimEnd(u, j);
    var digits := SplitSign(t).1;
    if t != [] && (t[0] == '-' || t[0] == '+') {
      assert k > 0 && digits[k - 1] == t[k];
      assert !IsDigit(digits[k - 1]);
    } else {
      assert !IsDigit(digits[k]);
    }
    assert !IsDigits(digits);
  }

  lemma {:induction false} LetterInTrimStart(s: string, i: nat) returns (j: nat)
    requires i < |s| && 'a' <= s[i] <= 'z'
    ensures j < |TrimStartBlanks(s)| && TrimStartBlanks(s)[j] == s[i]
  {
    if s != [] && IsNumberBlank(s[0]) {
      assert i > 0;
      j := LetterInTrimStart(s[1..], i - 1);
    } else {
      j := i;
    }
  }

  lemma {:induction false} LetterInTrimEnd(s: string, i: nat) returns (j: nat)
    requires i < |s| && 'a' <= s[i] <= 'z'
    ensures j < |TrimEndBlanks(s)| && TrimEndBlanks(s)[j] == s[i]
    decreases |s|
  {
    if s != [] && IsNumberBlank(s[|s| - 1]) {
      assert i < |s| - 1;
      j := LetterInTrimEnd(s[..|s| - 1], i);
    } else {
      j := i;
    }
  }
}

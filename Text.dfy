/** String operations of the JavaScript runtime that the portfolio
    generator relies on: `trim`, `split` and `join` on one separator,
    `startsWith`/`endsWith`, ASCII case mapping, `includes`, the number of
    non-overlapping matches of a literal pattern, and the `replace(/\s+/g, '_')`
    rewrite used for file names. */
module Text {

  /** The characters JavaScript's `trim` removes and the regular-expression
      class `\s` matches: WhiteSpace and LineTerminator of ECMA-262. */
  predicate IsSpace(c: char) {
    || c == ' ' || c == '\t' || c == '\n' || c == '\r'
    || c == '\U{000B}' || c == '\U{000C}' || c == '\U{00A0}' || c == '\U{1680}'
    || ('\U{2000}' <= c <= '\U{200A}')
    || c == '\U{2028}' || c == '\U{2029}' || c == '\U{202F}' || c == '\U{205F}'
    || c == '\U{3000}' || c == '\U{FEFF}'
  }

  /** The UTF-16 code units of one character: two for a character outside
      the Basic Multilingual Plane (a surrogate pair), one otherwise. */
  function Units(c: char): nat {
    if c as int >= 0x10000 then 2 else 1
  }

  /** `s.length`: JavaScript counts UTF-16 code units, not characters. */
  function Utf16Length(s: string): (n: nat)
    ensures |s| <= n <= 2 * |s|
  {
    if s == [] then 0 else Units(s[0]) + Utf16Length(s[1..])
  }

  /** Within the Basic Multilingual Plane code units are characters. */
  lemma {:induction false} Utf16LengthOfBmp(s: string)
    requires forall i :: 0 <= i < |s| ==> s[i] as int < 0x10000
    ensures Utf16Length(s) == |s|
  {
    if s != [] {
      assert forall i :: 0 <= i < |s[1..]| ==> s[1..][i] == s[i + 1];
      Utf16LengthOfBmp(s[1..]);
    }
  }

  /** Outside it every character is two code units. */
  lemma {:induction false} Utf16LengthOfAstral(s: string)
    requires forall i :: 0 <= i < |s| ==> s[i] as int >= 0x10000
    ensures Utf16Length(s) == 2 * |s|
  {
    if s != [] {
      assert forall i :: 0 <= i < |s[1..]| ==> s[1..][i] == s[i + 1];
      Utf16LengthOfAstral(s[1..]);
    }
  }

  /** `s.substring(0, n)` on whole characters: the longest prefix of `s`
      of at most `n` code units. It is one unit short of `n` exactly when
      the cut would split a surrogate pair. */
  function Utf16Prefix(s: string, n: nat): (p: string)
    ensures p <= s && Utf16Length(p) <= n
    ensures p != s ==> n < Utf16Length(p) + Units(s[|p|]) && n <= Utf16Length(p) + 1
    ensures Utf16Length(s) <= n ==> p == s
  {
    if s == [] || Units(s[0]) > n then
      assert s != [] ==> Utf16Length(s) >= Units(s[0]);
      []
    else
      var rest := Utf16Prefix(s[1..], n - Units(s[0]));
      var p := [s[0]] + rest;
      assert p[0] == s[0] && p[1..] == rest;
      assert Utf16Length(p) == Units(s[0]) + Utf16Length(rest);
      assert Utf16Length(s) == Units(s[0]) + Utf16Length(s[1..]);
      assert rest != s[1..] ==> s[|p|] == s[1..][|rest|];
      p
  }

  predicate NoSpace(s: string) {
    forall i :: 0 <= i < |s| ==> !IsSpace(s[i])
  }

  /** Leading whitespace removed: the result is the suffix of `s` that starts
      at its first non-space character. */
  function TrimStart(s: string): (r: string)
    ensures |r| <= |s| && r == s[|s| - |r|..]
    ensures r == [] || !IsSpace(r[0])
    ensures forall i :: 0 <= i < |s| - |r| ==> IsSpace(s[i])
  {
    if s != [] && IsSpace(s[0]) then TrimStart(s[1..]) else s
  }

  /** Trailing whitespace removed: the prefix of `s` that ends at its last
      non-space character. */
  function TrimEnd(s: string): (r: string)
    ensures |r| <= |s| && r == s[..|r|]
    ensures r == [] || !IsSpace(r[|r| - 1])
    ensures forall i :: |r| <= i < |s| ==> IsSpace(s[i])
  {
    if s != [] && IsSpace(s[|s| - 1]) then TrimEnd(s[..|s| - 1]) else s
  }

  /** `s.trim()` */
  function Trim(s: string): string {
    TrimEnd(TrimStart(s))
  }

  /** A string that `trim` leaves as it is. */
  predicate IsTrimmed(s: string) {
    s == [] || (!IsSpace(s[0]) && !IsSpace(s[|s| - 1]))
  }

  predicate AllSpace(s: string) {
    forall i :: 0 <= i < |s| ==> IsSpace(s[i])
  }

  /** Trimming removes exactly the whitespace padding around a trimmed string. */
  lemma TrimPadded(pre: string, s: string, post: string)
    requires AllSpace(pre) && AllSpace(post) && IsTrimmed(s)
    ensures Trim(pre + s + post) == s
  {
    var x := pre + s + post;
    var a := TrimStart(x);
    if s == [] {
      assert AllSpace(x);
      assert a == [];
    } else {
      assert x[|pre|] == s[0];
      assert |x| - |a| == |pre|;
      assert a == s + post;
      var b := TrimEnd(a);
      assert a[|s| - 1] == s[|s| - 1];
      assert |b| == |s|;
    }
  }

  /** `s.split(sep)` for a one-character separator: the pieces between
      separators, at least one, none holding the separator. */
  function Split(s: string, sep: char): (parts: seq<string>)
    ensures |parts| >= 1
    ensures forall i :: 0 <= i < |parts| ==> sep !in parts[i]
    decreases |s|
  {
    if s == [] then [[]]
    else
      var rest := Split(s[1..], sep);
      if s[0] == sep then
        [[]] + rest
      else
        [[s[0]] + rest[0]] + rest[1..]
  }

  /** Joining the pieces with the separator restores the text. */
  lemma {:induction false} SplitJoinsBack(s: string, sep: char)
    ensures Join(Split(s, sep), [sep]) == s
    decreases |s|
  {
    if s != [] {
      SplitJoinsBack(s[1..], sep);
      var rest := Split(s[1..], sep);
      assert |rest| > 1 ==> Join(rest, [sep]) == rest[0] + [sep] + Join(rest[1..], [sep]);
      assert s == [s[0]] + s[1..];
    }
  }

  /** `parts.join(sep)` */
  function Join(parts: seq<string>, sep: string): string
  {
    if |parts| == 0 then []
    else if |parts| == 1 then parts[0]
    else parts[0] + sep + Join(parts[1..], sep)
  }

  /** A string without the separator splits into itself alone. */
  lemma {:induction false} SplitNoSeparator(s: string, sep: char)
    requires sep !in s
    ensures Split(s, sep) == [s]
    decreases |s|
  {
    if s != [] {
      assert sep !in s[1..];
      SplitNoSeparator(s[1..], sep);
      assert [s[0]] + s[1..] == s;
    }
  }

  /** The first separator ends the first piece. */
  lemma {:induction false} SplitAtFirstSeparator(x: string, sep: char, y: string)
    requires sep !in x
    ensures Split(x + [sep] + y, sep) == [x] + Split(y, sep)
    decreases |x|
  {
    if x == [] {
      assert x + [sep] + y == [sep] + y;
      assert ([sep] + y)[1..] == y;
    } else {
      var s := x + [sep] + y;
      assert s[1..] == x[1..] + [sep] + y;
      assert sep !in x[1..];
      SplitAtFirstSeparator(x[1..], sep, y);
      assert [x[0]] + x[1..] == x;
    }
  }

  /** Joining pieces that hold no separator and splitting again gives the
      pieces back: `split` inverts `join`. */
  lemma {:induction false} SplitJoin(parts: seq<string>, sep: char)
    requires |parts| >= 1
    requires forall i :: 0 <= i < |parts| ==> sep !in parts[i]
    ensures Split(Join(parts, [sep]), sep) == parts
  {
    if |parts| == 1 {
      SplitNoSeparator(parts[0], sep);
    } else {
      SplitJoin(parts[1..], sep);
      SplitAtFirstSeparator(parts[0], sep, Join(parts[1..], [sep]));
      assert [parts[0]] + parts[1..] == parts;
    }
  }

  /** `s.startsWith(p)` */
  predicate StartsWith(s: string, p: string) {
    |p| <= |s| && s[..|p|] == p
  }

  /** `s.endsWith(p)` */
  predicate EndsWith(s: string, p: string) {
    |p| <= |s| && s[|s| - |p|..] == p
  }

  function ToLowerChar(c: char): char {
    if 'A' <= c <= 'Z' then (c as int - 'A' as int + 'a' as int) as char else c
  }

  function ToUpperChar(c: char): char {
    if 'a' <= c <= 'z' then (c as int - 'a' as int + 'A' as int) as char else c
  }

  /** `s.toLowerCase()` on the ASCII letters. */
  function ToLower(s: string): (r: string)
    ensures |r| == |s|
    ensures forall i :: 0 <= i < |s| ==> r[i] == ToLowerChar(s[i])
  {
    seq(|s|, i requires 0 <= i < |s| => ToLowerChar(s[i]))
  }

  /** Every character of `s` found in `from` replaced by `to`
      (`replace(/[…]/g, to)` for a one-character class). */
  function ReplaceEach(s: string, from: set<char>, to: char): (r: string)
    ensures |r| == |s|
    ensures forall i :: 0 <= i < |s| ==> r[i] == if s[i] in from then to else s[i]
  {
    seq(|s|, i requires 0 <= i < |s| => if s[i] in from then to else s[i])
  }

  /** `q` occurs in `text` starting at `i`. */
  predicate OccursAt(text: string, q: string, i: int) {
    0 <= i && i + |q| <= |text| && text[i..i + |q|] == q
  }

  /** `text.includes(q)` */
  predicate Contains(text: string, q: string) {
    exists i :: 0 <= i <= |text| - |q| && OccursAt(text, q, i)
  }

  /** The number of matches `text.match(new RegExp(q, 'g'))` finds for a
      non-empty literal pattern: scanning left to right, each match resumes
      the scan right after itself, so matches never overlap. */
  function CountOccurrences(text: string, q: string): nat
    requires q != []
    decreases |text|
  {
    if |text| < |q| then 0
    else if text[..|q|] == q then 1 + CountOccurrences(text[|q|..], q)
    else CountOccurrences(text[1..], q)
  }

  /** The match count is positive exactly when the text contains the
      pattern. */
  lemma {:induction false} CountPositiveIffContains(text: string, q: string)
    requires q != []
    ensures CountOccurrences(text, q) >= 1 <==> Contains(text, q)
    decreases |text|
  {
    if |text| < |q| {
    } else if text[..|q|] == q {
      assert OccursAt(text, q, 0);
    } else {
      CountPositiveIffContains(text[1..], q);
      var t := text[1..];
      if Contains(text, q) {
        var i :| 0 <= i <= |text| - |q| && OccursAt(text, q, i);
        assert i != 0;
        assert t[i - 1..i - 1 + |q|] == text[i..i + |q|];
        assert OccursAt(t, q, i - 1);
      }
      if Contains(t, q) {
        var i :| 0 <= i <= |t| - |q| && OccursAt(t, q, i);
        assert t[i..i + |q|] == text[i + 1..i + 1 + |q|];
        assert OccursAt(text, q, i + 1);
      }
    }
  }

  /** `s.replace(/\s+/g, '_')`: each maximal run of whitespace becomes a
      single underscore. The result holds no whitespace. */
  function UnderscoreSpaces(s: string): (r: string)
    ensures NoSpace(r)
    decreases |s|
  {
    if s == [] then []
    else if IsSpace(s[0]) then "_" + UnderscoreSpaces(TrimStart(s[1..]))
    else [s[0]] + UnderscoreSpaces(s[1..])
  }

  /** `s` with its whitespace and underscores left out. */
  function Visible(s: string): string
  {
    if s == [] then []
    else if IsSpace(s[0]) || s[0] == '_' then Visible(s[1..])
    else [s[0]] + Visible(s[1..])
  }

  lemma {:induction false} VisibleAppend(a: string, b: string)
    ensures Visible(a + b) == Visible(a) + Visible(b)
  {
    if a == [] {
      assert a + b == b;
    } else {
      assert (a + b)[0] == a[0];
      assert (a + b)[1..] == a[1..] + b;
      VisibleAppend(a[1..], b);
    }
  }

  lemma {:induction false} VisibleOfSpaces(s: string)
    requires AllSpace(s)
    ensures Visible(s) == []
  {
    if s != [] {
      VisibleOfSpaces(s[1..]);
    }
  }

  /** The rewrite only touches whitespace: every other character survives,
      in order. */
  lemma {:induction false} UnderscoreSpacesKeepsVisible(s: string)
    ensures Visible(UnderscoreSpaces(s)) == Visible(s)
    decreases |s|
  {
    if s != [] {
      if IsSpace(s[0]) {
        var t := TrimStart(s[1..]);
        UnderscoreSpacesKeepsVisible(t);
        VisibleAppend("_", UnderscoreSpaces(t));
        assert s[1..] == s[1..][..|s[1..]| - |t|] + t;
        VisibleOfSpaces(s[1..][..|s[1..]| - |t|]);
        VisibleAppend(s[1..][..|s[1..]| - |t|], t);
      } else {
        UnderscoreSpacesKeepsVisible(s[1..]);
        VisibleAppend([s[0]], UnderscoreSpaces(s[1..]));
      }
    }
  }

  /** A string without whitespace is left unchanged, so the rewrite is
      idempotent. */
  lemma {:induction false} UnderscoreSpacesOfNoSpace(s: string)
    requires NoSpace(s)
    ensures UnderscoreSpaces(s) == s
  {
    if s != [] {
      UnderscoreSpacesOfNoSpace(s[1..]);
      assert [s[0]] + s[1..] == s;
    }
  }

  lemma UnderscoreSpacesIdempotent(s: string)
    ensures UnderscoreSpaces(UnderscoreSpaces(s)) == UnderscoreSpaces(s)
  {
    UnderscoreSpacesOfNoSpace(UnderscoreSpaces(s));
  }
}

/** The client's GitHub username extractor: it accepts a profile URL in any
    of its usual spellings, or a bare handle, and returns the handle, or the
    empty string when it cannot find one. */
module GitHub {
  import opened Text

  /** A leading `https://` or `http://` removed (`replace(/^https?:\/\//, '')`). */
  function StripScheme(s: string): string {
    if StartsWith(s, "https://") then s[8..]
    else if StartsWith(s, "http://") then s[7..]
    else s
  }

  /** A leading `www.` removed. */
  function StripWww(s: string): string {
    if StartsWith(s, "www.") then s[4..] else s
  }

  predicate IsQueryMark(c: char) {
    c == '?' || c == '#'
  }

  /** `s.split(/[?#]/)[0]`: the prefix before the first `?` or `#`. */
  function CutQuery(s: string): (r: string)
    ensures |r| <= |s| && r == s[..|r|]
    ensures forall i :: 0 <= i < |r| ==> !IsQueryMark(r[i])
    ensures |r| == |s| || IsQueryMark(s[|r|])
  {
    if s == [] || IsQueryMark(s[0]) then []
    else
      var rest := CutQuery(s[1..]);
      assert s[1..][..|rest|] == s[1..|rest| + 1];
      [s[0]] + rest
  }

  /** `s.replace(/\/+$/, '')`: every trailing slash removed. */
  function StripTrailingSlashes(s: string): (r: string)
    ensures |r| <= |s| && r == s[..|r|]
    ensures r == [] || r[|r| - 1] != '/'
    ensures forall i :: |r| <= i < |s| ==> s[i] == '/'
  {
    if s != [] && s[|s| - 1] == '/' then StripTrailingSlashes(s[..|s| - 1]) else s
  }

  /** The input after trimming, scheme and `www.` removal, and cutting the
      query, the fragment and the trailing slashes. */
  function Normalize(input: string): (r: string)
    ensures forall i :: 0 <= i < |r| ==> !IsQueryMark(r[i])
    ensures r == [] || r[|r| - 1] != '/'
  {
    var n := CutQuery(StripWww(StripScheme(Trim(input))));
    StripTrailingSlashes(n)
  }

  /** `parts.findIndex(p => p === x)`: the first index holding `x`, or -1. */
  function FindIndex(parts: seq<string>, x: string): (r: int)
    ensures -1 <= r < |parts|
    ensures r >= 0 ==> parts[r] == x && forall j :: 0 <= j < r ==> parts[j] != x
    ensures r == -1 <==> x !in parts
  {
    if parts == [] then -1
    else if parts[0] == x then 0
    else
      var k := FindIndex(parts[1..], x);
      assert x in parts[1..] ==> x in parts;
      if k == -1 then -1 else k + 1
  }

  predicate IsHandleChar(c: char) {
    ('a' <= c <= 'z') || ('A' <= c <= 'Z') || ('0' <= c <= '9') || c == '-'
  }

  /** `/^[a-zA-Z0-9-]{1,39}$/` */
  predicate IsHandle(s: string) {
    1 <= |s| <= 39 && forall i :: 0 <= i < |s| ==> IsHandleChar(s[i])
  }

  const GitHubHost := "github.com"

  /** `x` is at index `k` and nowhere before it. */
  predicate FirstAt(parts: seq<string>, x: string, k: int) {
    0 <= k < |parts| && parts[k] == x && forall j :: 0 <= j < k ==> parts[j] != x
  }

  lemma {:induction false} JoinKeepsCharacters(parts: seq<string>, sep: string, i: int, c: char)
    requires 0 <= i < |parts| && c in parts[i]
    ensures c in Join(parts, sep)
  {
    if i > 0 {
      JoinKeepsCharacters(parts[1..], sep, i - 1, c);
    }
  }

  /** A character absent from `s` is absent from each of its pieces. */
  lemma SplitPartsLack(s: string, sep: char, i: int, c: char)
    requires c !in s && 0 <= i < |Split(s, sep)|
    ensures c !in Split(s, sep)[i]
  {
    if c in Split(s, sep)[i] {
      SplitJoinsBack(s, sep);
      JoinKeepsCharacters(Split(s, sep), [sep], i, c);
    }
  }

  /** `extractGitHubUsername(input)`. When the normalised input has a
      first `github.com` segment with a segment after it, the result is that
      next segment; otherwise it is the whole normalised input when that is
      a well-formed handle, and empty when it is not. The result never holds
      `/`, `?` or `#`, and empty input gives the empty string. */
  function ExtractGitHubUsername(input: string): (r: string)
    ensures '/' !in r && '?' !in r && '#' !in r
    ensures input == [] ==> r == []
    ensures var parts := Split(Normalize(input), '/');
      forall k :: FirstAt(parts, GitHubHost, k) && k + 1 < |parts| ==> r == parts[k + 1]
    ensures var parts := Split(Normalize(input), '/');
      !(exists k :: FirstAt(parts, GitHubHost, k) && k + 1 < |parts|) ==>
        r == (if IsHandle(Normalize(input)) then Normalize(input) else [])
  {
    var normalized := Normalize(input);
    var parts := Split(normalized, '/');
    var githubIndex := FindIndex(parts, GitHubHost);
    FirstAtUnique(parts, GitHubHost, githubIndex);
    if input == [] then
      []
    else if githubIndex != -1 && |parts| > githubIndex + 1 then
      SplitPartsLack(normalized, '/', githubIndex + 1, '?');
      SplitPartsLack(normalized, '/', githubIndex + 1, '#');
      parts[githubIndex + 1]
    else if IsHandle(normalized) then
      normalized
    else
      []
  }

  /** The index `FindIndex` gives is the one first position of `x` with a
      segment after it, and there is none when it gives -1 or the last
      index. */
  lemma FirstAtUnique(parts: seq<string>, x: string, i: int)
    requires i == FindIndex(parts, x)
    ensures i != -1 && i + 1 < |parts| ==> FirstAt(parts, x, i)
    ensures forall k :: FirstAt(parts, x, k) && k + 1 < |parts| ==> k == i
    ensures !(i != -1 && i + 1 < |parts|) ==> !(exists k :: FirstAt(parts, x, k) && k + 1 < |parts|)
  {
    forall k | FirstAt(parts, x, k)
      ensures k == i
    {
      assert x in parts;
    }
  }

  /** Cutting at the first `?` or `#` drops exactly a query or fragment
      that follows a mark-free prefix. */
  lemma CutQueryOf(a: string, q: string)
    requires forall i :: 0 <= i < |a| ==> !IsQueryMark(a[i])
    requires q == [] || IsQueryMark(q[0])
    ensures CutQuery(a + q) == a
  {
    var s := a + q;
    assert |a| < |s| ==> s[|a|] == q[0];
    assert forall i :: 0 <= i < |a| ==> s[i] == a[i];
  }

  /** Trailing slashes after a string that does not end in one are all
      removed, and nothing else is. */
  lemma StripTrailingSlashesOf(a: string, slashes: string)
    requires a != [] && a[|a| - 1] != '/'
    requires forall i :: 0 <= i < |slashes| ==> slashes[i] == '/'
    ensures StripTrailingSlashes(a + slashes) == a
  {
    var s := a + slashes;
    assert s[|a| - 1] == a[|a| - 1];
    assert forall i :: |a| <= i < |s| ==> s[i] == slashes[i - |a|];
  }

  lemma HandleHasNoQueryMark(h: string)
    requires IsHandle(h)
    ensures forall i :: 0 <= i < |h| ==> !IsQueryMark(h[i]) && h[i] != '/' && !IsSpace(h[i])
  {
    forall i | 0 <= i < |h|
      ensures !IsQueryMark(h[i]) && h[i] != '/' && !IsSpace(h[i])
    {
      assert IsHandleChar(h[i]);
    }
  }

  /** One differing character rules a prefix out. */
  lemma NotPrefixAt(s: string, p: string, i: int)
    requires 0 <= i < |p|
    requires i < |s| ==> s[i] != p[i]
    ensures !StartsWith(s, p)
  {
    if |p| <= |s| {
      assert s[..|p|][i] == s[i];
    }
  }

  /** None of the prefixes the extractor strips can start a handle. */
  lemma HandleKeepsPrefix(h: string)
    requires IsHandle(h)
    ensures StripWww(StripScheme(h)) == h
  {
    assert |h| > 5 ==> IsHandleChar(h[5]);
    NotPrefixAt(h, "https://", 5);
    assert |h| > 4 ==> IsHandleChar(h[4]);
    NotPrefixAt(h, "http://", 4);
    assert |h| > 3 ==> IsHandleChar(h[3]);
    NotPrefixAt(h, "www.", 3);
  }

  lemma NormalizeHandle(h: string)
    requires IsHandle(h)
    ensures Normalize(h) == h
  {
    HandleHasNoQueryMark(h);
    assert [] + h + [] == h;
    TrimPadded([], h, []);
    HandleKeepsPrefix(h);
    assert h + [] == h;
    CutQueryOf(h, []);
    StripTrailingSlashesOf(h, []);
  }

  /** A bare handle is its own username: trimming, scheme and `www.`
      removal, the query cut and the slash stripping all leave it alone, and
      it is not `github.com`. */
  lemma HandleIsItsOwnUsername(h: string)
    requires IsHandle(h)
    ensures ExtractGitHubUsername(h) == h
  {
    NormalizeHandle(h);
    HandleHasNoQueryMark(h);
    SplitNoSeparator(h, '/');
    assert |h| > 6 ==> IsHandleChar(h[6]) && h[6] != '.';
    assert h != GitHubHost;
    assert !exists k :: FirstAt([h], GitHubHost, k);
  }

  predicate AllSlashes(s: string) {
    forall i :: 0 <= i < |s| ==> s[i] == '/'
  }

  /** The profile URL spellings the extractor accepts: optional surrounding
      whitespace, an optional `http://` or `https://`, an optional `www.`,
      then `github.com/<handle>`, optional trailing slashes and an optional
      query or fragment. */
  predicate ProfileUrlParts(pre: string, scheme: string, www: string, slashes: string, query: string, post: string) {
    && AllSpace(pre) && AllSpace(post)
    && (scheme == [] || scheme == "http://" || scheme == "https://")
    && (www == [] || www == "www.")
    && AllSlashes(slashes)
    && (query == [] || (IsQueryMark(query[0]) && NoSpace(query)))
  }

  /** After trimming, the scheme and `www.` come off and leave
      `github.com/...`. */
  lemma StripProfilePrefixes(scheme: string, www: string, rest: string)
    requires scheme == [] || scheme == "http://" || scheme == "https://"
    requires www == [] || www == "www."
    requires StartsWith(rest, GitHubHost)
    ensures StripWww(StripScheme(scheme + www + rest)) == rest
  {
    var afterScheme := www + rest;
    var inner := scheme + afterScheme;
    assert rest[0] == 'g';
    assert afterScheme[0] == 'w' || afterScheme[0] == 'g';
    if scheme == [] {
      assert inner == afterScheme;
      NotPrefixAt(inner, "https://", 0);
      NotPrefixAt(inner, "http://", 0);
    } else if scheme == "http://" {
      assert inner[4] == ':';
      NotPrefixAt(inner, "https://", 4);
      assert inner[..7] == scheme;
      assert inner[7..] == afterScheme;
    } else {
      assert inner[..8] == scheme;
      assert inner[8..] == afterScheme;
    }
    assert StripScheme(inner) == afterScheme;
    if www == [] {
      assert afterScheme == rest;
      NotPrefixAt(rest, "www.", 0);
    } else {
      assert afterScheme[..4] == www;
      assert afterScheme[4..] == rest;
    }
  }

  /** What is left after the prefixes loses its query and trailing slashes. */
  lemma CutProfileTail(h: string, slashes: string, query: string)
    requires IsHandle(h) && AllSlashes(slashes)
    requires query == [] || IsQueryMark(query[0])
    ensures StripTrailingSlashes(CutQuery(GitHubHost + "/" + h + slashes + query)) == GitHubHost + "/" + h
  {
    HandleHasNoQueryMark(h);
    var path := GitHubHost + "/" + h;
    var beforeQuery := path + slashes;
    NoQueryMarkJoined(GitHubHost + "/", h);
    NoQueryMarkJoined(path, slashes);
    CutQueryOf(beforeQuery, query);
    assert path[|path| - 1] == h[|h| - 1];
    StripTrailingSlashesOf(path, slashes);
  }

  lemma NoQueryMarkJoined(a: string, b: string)
    requires forall i :: 0 <= i < |a| ==> !IsQueryMark(a[i])
    requires forall i :: 0 <= i < |b| ==> !IsQueryMark(b[i])
    ensures forall i :: 0 <= i < |a + b| ==> !IsQueryMark((a + b)[i])
  {
    forall i | 0 <= i < |a + b|
      ensures !IsQueryMark((a + b)[i])
    {
      if i >= |a| {
        assert (a + b)[i] == b[i - |a|];
      }
    }
  }

  /** `<pre><scheme><www>github.com/<h><slashes><query><post>` */
  function ProfileUrl(pre: string, scheme: string, www: string, h: string, slashes: string, query: string, post: string): string {
    pre + (scheme + www + (GitHubHost + "/" + h + slashes + query)) + post
  }

  lemma ProfileUrlCoreTrimmed(scheme: string, www: string, h: string, slashes: string, query: string)
    requires IsHandle(h) && AllSlashes(slashes)
    requires scheme == [] || scheme == "http://" || scheme == "https://"
    requires www == [] || www == "www."
    requires query == [] || NoSpace(query)
    ensures IsTrimmed(scheme + www + (GitHubHost + "/" + h + slashes + query))
  {
    var rest := GitHubHost + "/" + h + slashes + query;
    var inner := scheme + www + rest;
    assert rest[0] == 'g';
    assert inner[0] == 'h' || inner[0] == 'w' || inner[0] == 'g';
    var last := inner[|inner| - 1];
    assert last == rest[|rest| - 1];
    assert IsHandleChar(h[|h| - 1]);
    assert query != [] ==> last == query[|query| - 1];
    assert query == [] && slashes != [] ==> last == slashes[|slashes| - 1];
    assert query == [] && slashes == [] ==> last == h[|h| - 1];
  }

  lemma NormalizeProfileUrl(pre: string, scheme: string, www: string, h: string, slashes: string, query: string, post: string)
    requires IsHandle(h)
    requires ProfileUrlParts(pre, scheme, www, slashes, query, post)
    ensures Normalize(ProfileUrl(pre, scheme, www, h, slashes, query, post)) == GitHubHost + "/" + h
  {
    var rest := GitHubHost + "/" + h + slashes + query;
    var inner := scheme + www + rest;
    ProfileUrlCoreTrimmed(scheme, www, h, slashes, query);
    TrimPadded(pre, inner, post);
    assert Trim(ProfileUrl(pre, scheme, www, h, slashes, query, post)) == inner;
    assert StartsWith(rest, GitHubHost);
    StripProfilePrefixes(scheme, www, rest);
    CutProfileTail(h, slashes, query);
    assert StripTrailingSlashes(CutQuery(rest)) == GitHubHost + "/" + h;
  }

  /** `github.com/<h>` splits into the host and the handle. */
  lemma {:induction false} SplitHostPath(h: string)
    requires IsHandle(h)
    ensures Split(GitHubHost + "/" + h, '/') == [GitHubHost, h]
  {
    HandleHasNoQueryMark(h);
    assert GitHubHost + "/" + h == GitHubHost + ['/'] + h;
    SplitAtFirstSeparator(GitHubHost, '/', h);
    SplitNoSeparator(h, '/');
  }

  /** An input that normalises to `github.com/<h>` yields `h`. */
  lemma {:induction false} ExtractFromGitHubPath(input: string, h: string)
    requires input != [] && IsHandle(h)
    requires Normalize(input) == GitHubHost + "/" + h
    ensures ExtractGitHubUsername(input) == h
  {
    SplitHostPath(h);
    assert FirstAt([GitHubHost, h], GitHubHost, 0);
  }

  /** Every accepted spelling of a profile URL yields the handle in it. */
  lemma ProfileUrlGivesHandle(pre: string, scheme: string, www: string, h: string, slashes: string, query: string, post: string)
    requires IsHandle(h)
    requires ProfileUrlParts(pre, scheme, www, slashes, query, post)
    ensures ExtractGitHubUsername(ProfileUrl(pre, scheme, www, h, slashes, query, post)) == h
  {
    var input := ProfileUrl(pre, scheme, www, h, slashes, query, post);
    NormalizeProfileUrl(pre, scheme, www, h, slashes, query, post);
    assert |input| >= |GitHubHost|;
    ExtractFromGitHubPath(input, h);
  }
}

/**
 * The handful of Python string and path operations the scripts rely on, written out
 * over `seq<char>`: `str.replace` with a one-character pattern, `in` on strings,
 * `str.split` on one separator, `str.join`, `str.strip`, `str.lower` (ASCII letters),
 * `int(...)` on decimal text, `str(int)`, and the `os.path` functions `basename`,
 * `dirname` and `join` for POSIX paths.
 */
module Text {
  import opened Wrappers

  // ---------------------------------------------------------------------------
  // Searching
  // ---------------------------------------------------------------------------

  /** The first position of `c` in `s`. */
  function IndexOf(s: string, c: char): (r: Option<nat>)
    ensures r.Some? ==> r.value < |s| && s[r.value] == c && c !in s[..r.value]
    ensures r.None? ==> c !in s
  {
    if s == [] then None
    else if s[0] == c then Some(0)
    else match IndexOf(s[1..], c)
      case None => None
      case Some(i) => assert s[1..][..i] == s[1..i + 1]; Some(i + 1)
  }

  /** A first occurrence is the one `IndexOf` finds. */
  lemma IndexOfAt(s: string, c: char, k: nat)
    requires k < |s| && s[k] == c && c !in s[..k]
    ensures IndexOf(s, c) == Some(k)
  {
    var r := IndexOf(s, c);
    assert r.Some? by { assert s[k] in s; }
  }

  /** The last position of `c` in `s`. */
  function LastIndexOf(s: string, c: char): (r: Option<nat>)
    ensures r.Some? ==> r.value < |s| && s[r.value] == c && c !in s[r.value + 1..]
    ensures r.None? ==> c !in s
  {
    if s == [] then None
    else if s[|s| - 1] == c then Some(|s| - 1)
    else LastIndexOf(s[..|s| - 1], c)
  }

  predicate StartsWith(s: string, prefix: string) {
    |prefix| <= |s| && s[..|prefix|] == prefix
  }

  predicate EndsWith(s: string, suffix: string) {
    |suffix| <= |s| && s[|s| - |suffix|..] == suffix
  }

  /** Python's `sub in s`. */
  predicate Contains(s: string, sub: string)
    decreases |s|
  {
    StartsWith(s, sub) || (s != [] && Contains(s[1..], sub))
  }

  /** `sub` occurring at position `k` of `s` makes `sub in s` true. */
  lemma {:induction false} ContainsAt(s: string, sub: string, k: nat)
    requires k + |sub| <= |s| && s[k..k + |sub|] == sub
    ensures Contains(s, sub)
    decreases k
  {
    if k > 0 {
      assert s[1..][k - 1..k - 1 + |sub|] == s[k..k + |sub|];
      ContainsAt(s[1..], sub, k - 1);
    }
  }

  /** A string contains every substring of any of its substrings. */
  lemma {:induction false} ContainsTransitive(s: string, mid: string, sub: string)
    requires Contains(s, mid) && Contains(mid, sub)
    ensures Contains(s, sub)
    decreases |s|
  {
    if StartsWith(s, mid) {
      ContainsPrefixed(s, mid, sub);
    } else {
      ContainsTransitive(s[1..], mid, sub);
      ContainsTail(s, sub);
    }
  }

  lemma {:induction false} ContainsPrefixed(s: string, mid: string, sub: string)
    requires StartsWith(s, mid) && Contains(mid, sub)
    ensures Contains(s, sub)
    decreases |mid|
  {
    if StartsWith(mid, sub) {
      assert s[..|sub|] == mid[..|sub|];
    } else {
      ContainsPrefixed(s[1..], mid[1..], sub);
      ContainsTail(s, sub);
    }
  }

  lemma ContainsTail(s: string, sub: string)
    requires s != [] && Contains(s[1..], sub)
    ensures Contains(s, sub)
  {
  }

  // ---------------------------------------------------------------------------
  // Replacing
  // ---------------------------------------------------------------------------

  /** Python's `s.replace(c, t)` for a one-character pattern `c`: every `c` becomes `t`. */
  function Replace(s: string, c: char, t: string): (r: string)
    ensures c !in s ==> r == s
    ensures c !in t ==> c !in r
  {
    if s == [] then []
    else (if s[0] == c then t else [s[0]]) + Replace(s[1..], c, t)
  }

  /** A character in neither the string nor the replacement is not in the result. */
  lemma {:induction false} ReplaceAbsent(s: string, c: char, t: string, d: char)
    requires d !in s && d !in t
    ensures d !in Replace(s, c, t)
    decreases |s|
  {
    if s != [] {
      assert d !in s[1..] by { assert forall k :: 0 <= k < |s| - 1 ==> s[1..][k] == s[k + 1]; }
      ReplaceAbsent(s[1..], c, t, d);
    }
  }

  /** Replacing distributes over concatenation. */
  lemma {:induction false} ReplaceAppend(a: string, b: string, c: char, t: string)
    ensures Replace(a + b, c, t) == Replace(a, c, t) + Replace(b, c, t)
    decreases |a|
  {
    if a == [] {
      assert a + b == b;
    } else {
      assert (a + b)[1..] == a[1..] + b;
      ReplaceAppend(a[1..], b, c, t);
    }
  }

  /** Deleting the one occurrence of `c` joins the two sides. */
  lemma ReplaceDropOne(u: string, v: string, c: char)
    requires c !in u && c !in v
    ensures Replace(u + [c] + v, c, []) == u + v
  {
    ReplaceAppend(u + [c], v, c, []);
    ReplaceAppend(u, [c], c, []);
    assert Replace([c], c, []) == [] by { assert [c][1..] == []; }
    assert u + [] == u;
  }

  /** Replacing `c` by a character absent from `s`, and back, restores `s`. */
  lemma {:induction false} ReplaceInverse(s: string, c: char, d: char)
    requires d !in s
    ensures Replace(Replace(s, c, [d]), d, [c]) == s
    decreases |s|
  {
    if s != [] {
      var head := if s[0] == c then [d] else [s[0]];
      var rest := Replace(s[1..], c, [d]);
      assert Replace(s, c, [d]) == head + rest;
      assert Replace(head + rest, d, [c]) == [s[0]] + Replace(rest, d, [c]) by {
        ReplaceAppend(head, rest, d, [c]);
        assert s[0] in s;
        assert Replace(head, d, [c]) == [s[0]] by { assert head[1..] == []; }
      }
      assert Replace(rest, d, [c]) == s[1..] by {
        assert d !in s[1..] by { assert forall k :: 0 <= k < |s| - 1 ==> s[1..][k] == s[k + 1]; }
        ReplaceInverse(s[1..], c, d);
      }
      assert s == [s[0]] + s[1..];
    }
  }

  // ---------------------------------------------------------------------------
  // Splitting and joining
  // ---------------------------------------------------------------------------

  /** Python's `s.split(sep)` for a one-character separator: never empty, fields without `sep`. */
  function Split(s: string, sep: char): (r: seq<string>)
    ensures |r| >= 1
    ensures forall i :: 0 <= i < |r| ==> sep !in r[i]
    decreases |s|
  {
    match IndexOf(s, sep)
    case None => [s]
    case Some(i) => [s[..i]] + Split(s[i + 1..], sep)
  }

  /** Python's `sep.join(parts)`. */
  function Join(parts: seq<string>, sep: string): string
  {
    if parts == [] then []
    else if |parts| == 1 then parts[0]
    else parts[0] + sep + Join(parts[1..], sep)
  }

  /** A character found in neither the parts nor the separator is not in their join. */
  lemma {:induction false} JoinAvoids(parts: seq<string>, sep: string, c: char)
    requires c !in sep && forall i :: 0 <= i < |parts| ==> c !in parts[i]
    ensures c !in Join(parts, sep)
    decreases |parts|
  {
    if |parts| > 1 {
      JoinAvoids(parts[1..], sep, c);
      assert parts[0] + sep + Join(parts[1..], sep) == Join(parts, sep);
    }
  }

  /** Splitting on `sep` at a separator splits both sides independently. */
  lemma {:induction false} SplitAppend(a: string, b: string, sep: char)
    ensures Split(a + [sep] + b, sep) == Split(a, sep) + Split(b, sep)
    decreases |a|
  {
    var s := a + [sep] + b;
    match IndexOf(a, sep)
    case None =>
      assert s[|a|] == sep && s[..|a|] == a;
      IndexOfAt(s, sep, |a|);
      assert s[|a| + 1..] == b;
    case Some(i) =>
      assert s[..i] == a[..i];
      IndexOfAt(s, sep, i);
      assert s[i + 1..] == a[i + 1..] + [sep] + b;
      SplitAppend(a[i + 1..], b, sep);
  }

  /** A string without the separator splits into itself alone. */
  lemma SplitNoSep(s: string, sep: char)
    requires sep !in s
    ensures Split(s, sep) == [s]
  {
  }

  /** A leading field without the separator is split off alone. */
  lemma SplitCons(a: string, rest: string, sep: char)
    requires sep !in a
    ensures Split(a + [sep] + rest, sep) == [a] + Split(rest, sep)
  {
    SplitAppend(a, rest, sep);
    SplitNoSep(a, sep);
  }

  /** Two separator-free fields joined by the separator split back into the two. */
  lemma SplitPair(a: string, b: string, sep: char)
    requires sep !in a && sep !in b
    ensures Split(a + [sep] + b, sep) == [a, b]
  {
    SplitCons(a, b, sep);
    SplitNoSep(b, sep);
  }

  /** Three leading separator-free fields are split off in order. */
  lemma SplitThree(a: string, b: string, c: string, tail: string, sep: char)
    requires sep !in a && sep !in b && sep !in c
    ensures Split(a + [sep] + (b + [sep] + (c + [sep] + tail)), sep) == [a, b, c] + Split(tail, sep)
  {
    SplitCons(c, tail, sep);
    SplitCons(b, c + [sep] + tail, sep);
    SplitCons(a, b + [sep] + (c + [sep] + tail), sep);
  }

  /** Joining the fields of a split with the same separator gives the string back. */
  lemma {:induction false} JoinSplit(s: string, sep: char)
    ensures Join(Split(s, sep), [sep]) == s
    decreases |s|
  {
    match IndexOf(s, sep)
    case None =>
    case Some(i) =>
      var a, rest := s[..i], s[i + 1..];
      var tail := Split(rest, sep);
      JoinSplit(rest, sep);
      SplitAt(s, sep, i);
      JoinCons(a, tail, [sep]);
      SliceAround(s, i);
  }

  /** Splitting at the first separator. */
  lemma SplitAt(s: string, sep: char, i: nat)
    requires IndexOf(s, sep) == Some(i)
    ensures Split(s, sep) == [s[..i]] + Split(s[i + 1..], sep)
  {
  }

  /** Joining a list with a first element puts the separator after it. */
  lemma JoinCons(a: string, xs: seq<string>, sep: string)
    requires |xs| >= 1
    ensures Join([a] + xs, sep) == a + sep + Join(xs, sep)
  {
    assert ([a] + xs)[1..] == xs;
  }

  /** A string is the part before position `i`, the character there and the part after. */
  lemma SliceAround(s: string, i: nat)
    requires i < |s|
    ensures s == s[..i] + [s[i]] + s[i + 1..]
  {
  }

  /** Splitting a join of separator-free fields gives the fields back. */
  lemma {:induction false} SplitJoin(parts: seq<string>, sep: char)
    requires |parts| >= 1
    requires forall i :: 0 <= i < |parts| ==> sep !in parts[i]
    ensures Split(Join(parts, [sep]), sep) == parts
    decreases |parts|
  {
    SplitNoSep(parts[0], sep);
    if |parts| > 1 {
      var rest := Join(parts[1..], [sep]);
      assert Join(parts, [sep]) == parts[0] + [sep] + rest;
      SplitJoin(parts[1..], sep);
      SplitAppend(parts[0], rest, sep);
      assert parts == [parts[0]] + parts[1..];
    }
  }

  // ---------------------------------------------------------------------------
  // Whitespace and case
  // ---------------------------------------------------------------------------

  /** Python's `str.isspace` on the characters up to U+00A0. */
  predicate IsSpace(ch: char) {
    ch == ' ' || ('\t' <= ch <= '\r') || ('\U{1C}' <= ch <= '\U{1F}') || ch == '\U{85}' || ch == '\U{A0}'
  }

  /** Python's `s.lstrip()`. */
  function TrimStart(s: string): (r: string)
    ensures |r| <= |s| && r == s[|s| - |r|..]
    ensures r != [] ==> !IsSpace(r[0])
    ensures forall i :: 0 <= i < |s| - |r| ==> IsSpace(s[i])
  {
    if s != [] && IsSpace(s[0]) then
      var r := TrimStart(s[1..]);
      assert s[1..][|s| - 1 - |r|..] == s[|s| - |r|..];
      assert forall i :: 1 <= i < |s| - |r| ==> s[i] == s[1..][i - 1];
      r
    else s
  }

  /** Python's `s.rstrip()`. */
  function TrimEnd(s: string): (r: string)
    ensures |r| <= |s| && r == s[..|r|]
    ensures r != [] ==> !IsSpace(r[|r| - 1])
    ensures forall i :: |r| <= i < |s| ==> IsSpace(s[i])
  {
    if s != [] && IsSpace(s[|s| - 1]) then TrimEnd(s[..|s| - 1]) else s
  }

  /** Python's `s.strip()`. */
  function Strip(s: string): string {
    TrimEnd(TrimStart(s))
  }

  /** Stripping a string that has no surrounding space changes nothing. */
  lemma StripClean(s: string)
    requires s != [] ==> !IsSpace(s[0]) && !IsSpace(s[|s| - 1])
    ensures Strip(s) == s
  {
  }

  /** A printed line loses its newline, and nothing else, to `strip()`. */
  lemma StripLine(s: string)
    requires s != [] && !IsSpace(s[0]) && !IsSpace(s[|s| - 1])
    ensures Strip(s + "\n") == s
  {
    assert TrimStart(s + "\n") == s + "\n";
    assert (s + "\n")[..|s|] == s;
  }

  function LowerChar(ch: char): (r: char)
    ensures 'A' <= ch <= 'Z' ==> 'a' <= r <= 'z'
    ensures !('A' <= ch <= 'Z') ==> r == ch
  {
    if 'A' <= ch <= 'Z' then (ch as int + 32) as char else ch
  }

  /** Python's `s.lower()` on ASCII letters. */
  function Lower(s: string): (r: string)
    ensures |r| == |s|
    ensures forall i :: 0 <= i < |s| ==> r[i] == LowerChar(s[i])
  {
    if s == [] then [] else [LowerChar(s[0])] + Lower(s[1..])
  }

  /** The strings that lower-case to a given lower-case word are its spellings in either case. */
  lemma LowerEquals(s: string, word: string)
    requires forall i :: 0 <= i < |word| ==> !('A' <= word[i] <= 'Z')
    ensures Lower(s) == word <==>
      |s| == |word| && forall i :: 0 <= i < |s| ==> s[i] == word[i] || LowerChar(s[i]) == word[i]
  {
    if |s| == |word| && forall i :: 0 <= i < |s| ==> s[i] == word[i] || LowerChar(s[i]) == word[i] {
      forall i | 0 <= i < |s| ensures Lower(s)[i] == word[i] {
        if s[i] == word[i] {
          assert LowerChar(s[i]) == s[i];
        }
      }
    }
  }

  // ---------------------------------------------------------------------------
  // Decimal numbers
  // ---------------------------------------------------------------------------

  predicate IsDigit(ch: char) { '0' <= ch <= '9' }

  function DigitValue(ch: char): nat
    requires IsDigit(ch)
  {
    ch as int - '0' as int
  }

  function DigitChar(d: nat): (ch: char)
    requires d < 10
    ensures IsDigit(ch) && DigitValue(ch) == d
  {
    ('0' as int + d) as char
  }

  /** Digit runs as Python's `int` accepts them: digits, single `_` between digits allowed. */
  predicate IsDigitGroups(s: string) {
    && |s| > 0 && IsDigit(s[0]) && IsDigit(s[|s| - 1])
    && (forall i :: 0 <= i < |s| ==> IsDigit(s[i]) || s[i] == '_')
    && (forall i :: 0 <= i < |s| - 1 ==> !(s[i] == '_' && s[i + 1] == '_'))
  }

  /** The value of a digit-and-underscore string read left to right, underscores ignored. */
  function DigitsValue(s: string): nat
    requires forall i :: 0 <= i < |s| ==> IsDigit(s[i]) || s[i] == '_'
  {
    if s == [] then 0
    else if s[|s| - 1] == '_' then DigitsValue(s[..|s| - 1])
    else DigitsValue(s[..|s| - 1]) * 10 + DigitValue(s[|s| - 1])
  }

  /** Python's `int(s)` for base-10 text that has already been stripped. */
  function ParseInt(s: string): Option<int>
  {
    if |s| > 0 && (s[0] == '+' || s[0] == '-') then
      if IsDigitGroups(s[1..]) then
        var v: int := DigitsValue(s[1..]);
        Some(if s[0] == '-' then -v else v)
      else None
    else if IsDigitGroups(s) then Some(DigitsValue(s))
    else None
  }

  /** Python's `str(n)` for a natural number. */
  function NatToString(n: nat): (s: string)
    ensures |s| > 0 && forall i :: 0 <= i < |s| ==> IsDigit(s[i])
  {
    if n < 10 then [DigitChar(n)] else NatToString(n / 10) + [DigitChar(n % 10)]
  }

  /** Python's `str(i)` for an integer. */
  function IntToString(i: int): string
  {
    if i < 0 then "-" + NatToString(-i) else NatToString(i)
  }

  lemma {:induction false} NatToStringValue(n: nat)
    ensures DigitsValue(NatToString(n)) == n
    decreases n
  {
    if n >= 10 {
      var s := NatToString(n);
      NatToStringValue(n / 10);
      assert s[..|s| - 1] == NatToString(n / 10);
    }
  }

  /** `int(str(i)) == i`: printing an integer and reading it back is the identity. */
  lemma IntToStringRoundTrip(i: int)
    ensures ParseInt(IntToString(i)) == Some(i)
  {
    var n: nat := if i < 0 then -i else i;
    var d := NatToString(n);
    DigitGroups(d);
    NatToStringValue(n);
    var s := IntToString(i);
    if i < 0 {
      assert s == "-" + d;
      assert s[0] == '-' && s[1..] == d;
    } else {
      assert s == d && IsDigit(s[0]);
    }
  }

  /** A non-empty run of digits is a valid digit group. */
  lemma DigitGroups(d: string)
    requires d != [] && forall k :: 0 <= k < |d| ==> IsDigit(d[k])
    ensures IsDigitGroups(d)
  {
  }

  // ---------------------------------------------------------------------------
  // POSIX paths (Python's os.path on Linux)
  // ---------------------------------------------------------------------------

  /** Python's `os.path.basename(p)`: what follows the last `/`. */
  function Basename(p: string): (b: string)
    ensures '/' !in b
    ensures EndsWith(p, b)
  {
    match LastIndexOf(p, '/')
    case None => p
    case Some(i) => p[i + 1..]
  }

  function TrimTrailingSlashes(s: string): (r: string)
    ensures |r| <= |s| && r == s[..|r|]
  {
    if s != [] && s[|s| - 1] == '/' then TrimTrailingSlashes(s[..|s| - 1]) else s
  }

  /** Python's `os.path.dirname(p)`: what precedes the last `/`, trailing slashes dropped unless only slashes. */
  function Dirname(p: string): string
  {
    match LastIndexOf(p, '/')
    case None => ""
    case Some(i) =>
      var head := p[..i + 1];
      if TrimTrailingSlashes(head) == "" then head else TrimTrailingSlashes(head)
  }

  /** Python's `os.path.join(a, b)` for two components. */
  function JoinPath(a: string, b: string): string
  {
    if StartsWith(b, "/") then b
    else if a == "" || EndsWith(a, "/") then a + b
    else a + "/" + b
  }

  /** A file name without `/` keeps its name when joined below any directory. */
  lemma BasenameOfJoin(dir: string, name: string)
    requires '/' !in name
    ensures Basename(JoinPath(dir, name)) == name
  {
    assert !StartsWith(name, "/") by {
      if |name| > 0 { assert name[0] in name; }
    }
    var p := JoinPath(dir, name);
    if dir == "" {
      assert p == name;
    } else if EndsWith(dir, "/") {
      assert p == dir + name;
      assert p[|dir| - 1] == '/' by { assert dir[|dir| - 1..][0] == dir[|dir| - 1]; }
      assert p[|dir|..] == name;
      BasenameAt(p, |dir| - 1, name);
    } else {
      assert p == dir + "/" + name;
      assert p[|dir|] == '/' && p[|dir| + 1..] == name;
      BasenameAt(p, |dir|, name);
    }
  }

  /** A path whose last `/` is at `k` has the rest as its basename. */
  lemma BasenameAt(p: string, k: nat, name: string)
    requires k < |p| && p[k] == '/' && p[k + 1..] == name && '/' !in name
    ensures Basename(p) == name
  {
    LastIndexOfAt(p, k);
  }

  lemma LastIndexOfAt(s: string, k: nat)
    requires k < |s| && s[k] == '/' && '/' !in s[k + 1..]
    ensures LastIndexOf(s, '/') == Some(k)
  {
    var r := LastIndexOf(s, '/');
    assert r.Some? by { assert s[k] in s; }
  }

  /** A directory not ending in `/`, joined with a plain file name, is that file's directory. */
  lemma DirnameOfJoin(dir: string, name: string)
    requires dir != "" && !EndsWith(dir, "/") && '/' !in name
    ensures Dirname(JoinPath(dir, name)) == dir
  {
    assert !StartsWith(name, "/") by {
      if |name| > 0 { assert name[0] in name; }
    }
    var p := JoinPath(dir, name);
    assert p == dir + "/" + name;
    assert p[|dir| + 1..] == name;
    LastIndexOfAt(p, |dir|);
    var head := p[..|dir| + 1];
    assert head[..|head| - 1] == dir;
    assert dir[|dir| - 1] != '/' by { assert dir[|dir| - 1..] == [dir[|dir| - 1]]; }
    assert TrimTrailingSlashes(head) == TrimTrailingSlashes(dir);
    assert TrimTrailingSlashes(dir) == dir;
  }

  // ---------------------------------------------------------------------------
  // Python formatting of optional values
  // ---------------------------------------------------------------------------

  /** How an f-string renders a value that may be `None`. */
  function StrOrNone(v: Option<string>): (s: string)
    ensures v.None? ==> s == "None"
    ensures v.Some? ==> s == v.value
  {
    match v
    case None => "None"
    case Some(x) => x
  }

  /** How an f-string renders an integer that may be `None`. */
  function IntOrNone(v: Option<int>): string
  {
    match v
    case None => "None"
    case Some(x) => IntToString(x)
  }

  /** Python truthiness of an optional string: present and non-empty. */
  predicate Truthy(v: Option<string>) {
    v.Some? && v.value != ""
  }
}

/**
 * The handful of Rust `str` operations the PMA reader is built from, as
 * functions on `string` (a `seq<char>`): `trim`, `trim_start`, `trim_end`,
 * `find`, `split`, `contains` and counting characters.  Each is given a
 * contract that characterises its result independently of how it is computed.
 */
module StrOps {
  import opened Wrappers

  /** Rust's `char::is_whitespace`: the characters with the Unicode White_Space property. */
  predicate IsWhitespace(c: char) {
    ('\t' <= c <= '\r') || c == ' ' || c == '\U{85}' || c == '\U{A0}' || c == '\U{1680}'
    || ('\U{2000}' <= c <= '\U{200A}') || c == '\U{2028}' || c == '\U{2029}'
    || c == '\U{202F}' || c == '\U{205F}' || c == '\U{3000}'
  }

  predicate AllWhitespace(s: string) {
    forall i :: 0 <= i < |s| ==> IsWhitespace(s[i])
  }

  /** `str::trim_start`: drops the leading whitespace (characterised by `TrimStartSpec`). */
  function TrimStart(s: string): string {
    if s != [] && IsWhitespace(s[0]) then TrimStart(s[1..]) else s
  }

  /** `TrimStart` keeps the longest suffix of `s` that does not start with whitespace. */
  lemma {:induction false} TrimStartSpec(s: string)
    ensures |TrimStart(s)| <= |s| && TrimStart(s) == s[|s| - |TrimStart(s)|..]
    ensures AllWhitespace(s[..|s| - |TrimStart(s)|])
    ensures TrimStart(s) == [] || !IsWhitespace(TrimStart(s)[0])
  {
    if s != [] && IsWhitespace(s[0]) {
      TrimStartSpec(s[1..]);
      var r := TrimStart(s);
      assert s[..|s| - |r|] == [s[0]] + s[1..][..|s| - 1 - |r|];
    }
  }

  /** `str::trim_end`: drops the trailing whitespace (characterised by `TrimEndSpec`). */
  function TrimEnd(s: string): string {
    if s != [] && IsWhitespace(s[|s| - 1]) then TrimEnd(s[..|s| - 1]) else s
  }

  /** `TrimEnd` keeps the longest prefix of `s` that does not end with whitespace. */
  lemma {:induction false} TrimEndSpec(s: string)
    ensures |TrimEnd(s)| <= |s| && TrimEnd(s) == s[..|TrimEnd(s)|]
    ensures AllWhitespace(s[|TrimEnd(s)|..])
    ensures TrimEnd(s) == [] || !IsWhitespace(TrimEnd(s)[|TrimEnd(s)| - 1])
  {
    if s != [] && IsWhitespace(s[|s| - 1]) {
      TrimEndSpec(s[..|s| - 1]);
      var r := TrimEnd(s);
      assert s[|r|..] == s[..|s| - 1][|r|..] + [s[|s| - 1]];
    }
  }

  /** `str::trim`: `s` without its leading and trailing whitespace. */
  function Trim(s: string): string {
    TrimEnd(TrimStart(s))
  }

  /** `Trim` gives a piece of `s` that neither starts nor ends with whitespace, with only whitespace around it. */
  lemma TrimSpec(s: string)
    ensures |Trim(s)| <= |s|
    ensures Trim(s) == [] || (!IsWhitespace(Trim(s)[0]) && !IsWhitespace(Trim(s)[|Trim(s)| - 1]))
    ensures exists i ::
      (0 <= i <= |s| - |Trim(s)| && s[i..i + |Trim(s)|] == Trim(s)
       && AllWhitespace(s[..i]) && AllWhitespace(s[i + |Trim(s)|..]))
  {
    var t := TrimStart(s);
    TrimStartSpec(s);
    TrimEndSpec(t);
    var r := Trim(s);
    var i := |s| - |t|;
    assert s[i..i + |r|] == r;
    assert s[i + |r|..] == t[|r|..];
  }

  /** Leading whitespace in front of a text that does not start with whitespace is exactly what `TrimStart` drops. */
  lemma {:induction false} TrimStartAround(pre: string, rest: string)
    requires AllWhitespace(pre)
    requires rest == [] || !IsWhitespace(rest[0])
    ensures TrimStart(pre + rest) == rest
  {
    if pre != [] {
      assert (pre + rest)[1..] == pre[1..] + rest;
      TrimStartAround(pre[1..], rest);
    }
  }

  /** Trailing whitespace after a text that does not end with whitespace is exactly what `TrimEnd` drops. */
  lemma {:induction false} TrimEndAround(rest: string, post: string)
    requires AllWhitespace(post)
    requires rest == [] || !IsWhitespace(rest[|rest| - 1])
    ensures TrimEnd(rest + post) == rest
  {
    if post != [] {
      assert (rest + post)[..|rest + post| - 1] == rest + post[..|post| - 1];
      TrimEndAround(rest, post[..|post| - 1]);
    } else {
      assert rest + post == rest;
    }
  }

  /**
   * `Trim` is determined: whitespace around a core that neither starts nor
   * ends with whitespace is removed, and nothing else.
   */
  lemma TrimAround(pre: string, core: string, post: string)
    requires AllWhitespace(pre) && AllWhitespace(post)
    requires core == [] || (!IsWhitespace(core[0]) && !IsWhitespace(core[|core| - 1]))
    ensures Trim(pre + core + post) == core
  {
    if core == [] {
      assert pre + core + post == pre + post;
      assert AllWhitespace(pre + post);
      TrimStartAround(pre + post, []);
      assert pre + post + [] == pre + post;
      TrimEndAround([], []);
    } else {
      assert pre + core + post == pre + (core + post);
      TrimStartAround(pre, core + post);
      TrimEndAround(core, post);
    }
  }

  /** Trimming twice trims no more than trimming once. */
  lemma TrimIdempotent(s: string)
    ensures Trim(Trim(s)) == Trim(s)
  {
    var r := Trim(s);
    TrimSpec(s);
    assert AllWhitespace([]);
    TrimAround([], r, []);
    assert [] + r + [] == r;
  }

  /** `str::find` with a `char` pattern: the index of the first occurrence of `c` (see `FindSpec`). */
  function Find(s: string, c: char): Option<nat> {
    if s == [] then None
    else if s[0] == c then Some(0)
    else match Find(s[1..], c)
      case None => None
      case Some(i) => Some(i + 1)
  }

  /** `Find` answers `None` exactly when `c` is absent, and otherwise the first position of `c`. */
  lemma {:induction false} FindSpec(s: string, c: char)
    ensures Find(s, c).None? <==> c !in s
    ensures Find(s, c).Some? ==> Find(s, c).value < |s| && s[Find(s, c).value] == c && c !in s[..Find(s, c).value]
  {
    if s != [] && s[0] != c {
      FindSpec(s[1..], c);
      assert s == [s[0]] + s[1..];
      if Find(s[1..], c).Some? {
        var i := Find(s[1..], c).value;
        assert s[..i + 1] == [s[0]] + s[1..][..i];
      }
    }
  }

  /** The text of `s` before the first `c`, or all of `s` when there is none. */
  function Before(s: string, c: char): string {
    FindSpec(s, c);
    match Find(s, c)
    case None => s
    case Some(i) => s[..i]
  }

  /** `Before` is the longest `c`-free prefix of `s`: it stops at the first `c`, if any. */
  lemma BeforeSpec(s: string, c: char)
    ensures Before(s, c) <= s && c !in Before(s, c)
    ensures |Before(s, c)| < |s| <==> c in s
    ensures |Before(s, c)| < |s| ==> s[|Before(s, c)|] == c
  {
    FindSpec(s, c);
  }

  /** Joins `parts` with `c` between consecutive parts, the inverse of `Split`. */
  function Join(parts: seq<string>, c: char): string
    requires |parts| >= 1
  {
    if |parts| == 1 then parts[0] else parts[0] + [c] + Join(parts[1..], c)
  }

  /**
   * `str::split` with a `char` pattern, collected into a vector: the maximal
   * `c`-free pieces of `s`, in order (see `SplitSpec`).
   */
  function Split(s: string, c: char): seq<string>
    decreases |s|
  {
    FindSpec(s, c);
    match Find(s, c)
    case None => [s]
    case Some(i) => [s[..i]] + Split(s[i + 1..], c)
  }

  /**
   * `Split` gives at least one piece, no piece holds `c`, joining the pieces
   * gives `s` back, the first two pieces are the text up to the first and
   * between the first and second `c`, and there is one piece exactly when
   * `c` does not occur.
   */
  lemma {:induction false} SplitSpec(s: string, c: char)
    ensures |Split(s, c)| >= 1
    ensures forall i :: 0 <= i < |Split(s, c)| ==> c !in Split(s, c)[i]
    ensures Join(Split(s, c), c) == s
    ensures Split(s, c)[0] == Before(s, c)
    ensures |Split(s, c)| >= 2 ==> Split(s, c)[1] == Before(s[|Before(s, c)| + 1..], c)
    ensures |Split(s, c)| == 1 <==> c !in s
    decreases |s|
  {
    FindSpec(s, c);
    if c in s {
      var i := Find(s, c).value;
      var rest := Split(s[i + 1..], c);
      SplitSpec(s[i + 1..], c);
      assert Split(s, c) == [s[..i]] + rest;
      assert s == s[..i] + [c] + s[i + 1..];
    }
  }

  /** Splitting is the inverse of joining `c`-free parts. */
  lemma {:induction false} SplitJoin(parts: seq<string>, c: char)
    requires |parts| >= 1
    requires forall i :: 0 <= i < |parts| ==> c !in parts[i]
    ensures Split(Join(parts, c), c) == parts
    decreases |parts|
  {
    if |parts| > 1 {
      var tail := Join(parts[1..], c);
      var s := parts[0] + [c] + tail;
      assert Join(parts, c) == s;
      FindSpec(s, c);
      assert s[..|parts[0]|] == parts[0];
      assert Find(s, c) == Some(|parts[0]|) by {
        assert s[|parts[0]|] == c;
      }
      assert s[|parts[0]| + 1..] == tail;
      SplitJoin(parts[1..], c);
      assert parts == [parts[0]] + parts[1..];
    } else {
      FindSpec(parts[0], c);
    }
  }

  /** The number of occurrences of `c` in `s`: `s.chars().filter(|x| *x == c).count()`. */
  function CountChar(s: string, c: char): nat {
    if s == [] then 0 else (if s[0] == c then 1 else 0) + CountChar(s[1..], c)
  }

  /** `CountChar` is the multiplicity of `c` in `s`, hence zero exactly when `c` is absent. */
  lemma {:induction false} CountCharSpec(s: string, c: char)
    ensures CountChar(s, c) == multiset(s)[c]
    ensures CountChar(s, c) <= |s|
    ensures CountChar(s, c) == 0 <==> c !in s
  {
    if s != [] {
      CountCharSpec(s[1..], c);
      assert s == [s[0]] + s[1..];
    }
  }

  /** Counting distributes over concatenation. */
  lemma CountCharAppend(a: string, b: string, c: char)
    ensures CountChar(a + b, c) == CountChar(a, c) + CountChar(b, c)
  {
    CountCharSpec(a + b, c);
    CountCharSpec(a, c);
    CountCharSpec(b, c);
    assert multiset(a + b) == multiset(a) + multiset(b);
  }

  /** `pat` occurs in `s` at offset `i`. */
  ghost predicate OccursAt(s: string, pat: string, i: int) {
    0 <= i <= |s| - |pat| && s[i..i + |pat|] == pat
  }

  /** `str::contains` with a string pattern (see `ContainsSpec`). */
  function Contains(s: string, pat: string): bool
    decreases |s|
  {
    if pat <= s then true
    else if s == [] then false
    else Contains(s[1..], pat)
  }

  /** `Contains` holds exactly when `pat` occurs in `s` as a contiguous piece. */
  lemma {:induction false} ContainsSpec(s: string, pat: string)
    ensures Contains(s, pat) <==> exists i :: OccursAt(s, pat, i)
    decreases |s|
  {
    if pat <= s {
      assert OccursAt(s, pat, 0);
    } else if s != [] {
      ContainsSpec(s[1..], pat);
      ContainsStep(s, pat, Contains(s[1..], pat));
    }
  }

  /** An occurrence in `s` that is not at offset 0 is an occurrence in `s[1..]`, one offset earlier. */
  lemma ContainsStep(s: string, pat: string, r: bool)
    requires s != [] && !(pat <= s)
    requires r <==> exists i :: OccursAt(s[1..], pat, i)
    ensures r <==> exists i :: OccursAt(s, pat, i)
  {
    if r {
      var i :| OccursAt(s[1..], pat, i);
      assert s[i + 1..i + 1 + |pat|] == s[1..][i..i + |pat|];
      assert OccursAt(s, pat, i + 1);
    } else {
      forall i | 1 <= i && OccursAt(s, pat, i) ensures OccursAt(s[1..], pat, i - 1) {
        assert s[1..][i - 1..i - 1 + |pat|] == s[i..i + |pat|];
      }
    }
  }
}

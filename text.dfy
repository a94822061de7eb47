/** String helpers the tool borrows from .NET: invariant upper-casing and the
    case-insensitive comparison built on it, `char.IsWhiteSpace`, `string.Trim`
    and `string.IsNullOrWhiteSpace`. */
module Text {
  import opened Types

  /** Invariant upper-casing of one character (ASCII letters only). */
  function Upper(c: char): (u: char)
    ensures 'a' <= c <= 'z' ==> u as int == c as int - 32
    ensures !('a' <= c <= 'z') ==> u == c
  {
    if 'a' <= c <= 'z' then (c as int - 32) as char else c
  }

  /** Invariant upper-casing of a string, character by character. */
  function ToUpper(s: string): string {
    seq(|s|, i requires 0 <= i < |s| => Upper(s[i]))
  }

  /** `StringComparer.InvariantCultureIgnoreCase` equality. */
  predicate EqualsIgnoreCase(a: string, b: string) {
    ToUpper(a) == ToUpper(b)
  }

  /** `Contains(x, StringComparer.InvariantCultureIgnoreCase)` on a list. */
  predicate ContainsIgnoreCase(xs: seq<string>, x: string) {
    exists i :: 0 <= i < |xs| && EqualsIgnoreCase(xs[i], x)
  }

  /** No two entries are equal ignoring case. */
  predicate NoDupIgnoreCase(xs: seq<string>) {
    forall i, j :: 0 <= i < j < |xs| ==> !EqualsIgnoreCase(xs[i], xs[j])
  }

  predicate StartsWithSlash(s: string) {
    |s| > 0 && s[0] == '/'
  }

  /** `char.IsWhiteSpace`: the Unicode separators Zs, Zl, Zp and the controls
      U+0009 to U+000D and U+0085. */
  predicate IsWhiteSpace(c: char) {
    var n := c as int;
    (0x09 <= n <= 0x0D) || n == 0x20 || n == 0x85 || n == 0xA0 || n == 0x1680
    || (0x2000 <= n <= 0x200A) || n == 0x2028 || n == 0x2029 || n == 0x202F
    || n == 0x205F || n == 0x3000
  }

  /** `string.IsNullOrWhiteSpace` for a string that is present. */
  predicate IsBlank(s: string) {
    forall i :: 0 <= i < |s| ==> IsWhiteSpace(s[i])
  }

  /** `string.Trim()`: drops the leading, then the trailing white space. */
  function Trim(s: string): string
    decreases |s|
  {
    if s != [] && IsWhiteSpace(s[0]) then Trim(s[1..])
    else if s != [] && IsWhiteSpace(s[|s| - 1]) then Trim(s[..|s| - 1])
    else s
  }

  /** Trimming removes white space only, and only at the two ends. */
  lemma {:induction false} TrimDropsOnlyWhiteSpace(s: string)
    ensures exists p, q :: s == p + Trim(s) + q && IsBlank(p) && IsBlank(q)
    decreases |s|
  {
    if s != [] && IsWhiteSpace(s[0]) {
      TrimDropsOnlyWhiteSpace(s[1..]);
      var p, q :| s[1..] == p + Trim(s[1..]) + q && IsBlank(p) && IsBlank(q);
      assert IsBlank([s[0]] + p);
      assert s == ([s[0]] + p) + Trim(s) + q;
    } else if s != [] && IsWhiteSpace(s[|s| - 1]) {
      TrimDropsOnlyWhiteSpace(s[..|s| - 1]);
      var p, q :| s[..|s| - 1] == p + Trim(s[..|s| - 1]) + q && IsBlank(p) && IsBlank(q);
      assert IsBlank(q + [s[|s| - 1]]);
      assert s == p + Trim(s) + (q + [s[|s| - 1]]);
    } else {
      var none: string := [];
      assert IsBlank(none) && s == none + Trim(s) + none;
    }
  }

  /** The trimmed text neither starts nor ends with white space. */
  lemma {:induction false} TrimEnds(s: string)
    ensures Trim(s) == [] || (!IsWhiteSpace(Trim(s)[0]) && !IsWhiteSpace(Trim(s)[|Trim(s)| - 1]))
    decreases |s|
  {
    if s != [] && IsWhiteSpace(s[0]) {
      TrimEnds(s[1..]);
    } else if s != [] && IsWhiteSpace(s[|s| - 1]) {
      TrimEnds(s[..|s| - 1]);
    }
  }

  /** Trimming twice is trimming once. */
  lemma TrimIdempotent(s: string)
    ensures Trim(Trim(s)) == Trim(s)
  {
    TrimEnds(s);
  }

  /** `ToUpperInvariant(s) == key`, one character at a time. */
  predicate UpperMatches(s: string, key: string)
    decreases |s|
  {
    if s == [] then key == []
    else key != [] && Upper(s[0]) == key[0] && UpperMatches(s[1..], key[1..])
  }

  lemma {:induction false} UpperMatchesIsToUpper(s: string, key: string)
    ensures UpperMatches(s, key) <==> ToUpper(s) == key
    decreases |s|
  {
    if s != [] && key != [] {
      UpperMatchesIsToUpper(s[1..], key[1..]);
      assert ToUpper(s) == [Upper(s[0])] + ToUpper(s[1..]);
    }
  }

  /** The value of the first entry of a keyword table whose upper-case keyword
      `arg` matches, ignoring case. */
  function Lookup<T>(arg: string, table: seq<(string, T)>): Option<T> {
    if table == [] then None
    else if UpperMatches(arg, table[0].0) then Some(table[0].1)
    else Lookup(arg, table[1..])
  }

  /** A lookup that succeeds has found an entry whose keyword matches. */
  lemma {:induction false} LookupFound<T>(arg: string, table: seq<(string, T)>)
    requires Lookup(arg, table).Some?
    ensures exists k :: 0 <= k < |table| && table[k].1 == Lookup(arg, table).value
                        && UpperMatches(arg, table[k].0)
  {
    if !UpperMatches(arg, table[0].0) {
      LookupFound(arg, table[1..]);
      var k :| 0 <= k < |table| - 1 && table[1..][k].1 == Lookup(arg, table).value
               && UpperMatches(arg, table[1..][k].0);
      assert table[k + 1] == table[1..][k];
    }
  }

  /** Tokens that differ only in case look up the same entry. */
  lemma {:induction false} LookupIgnoresCase<T>(s: string, t: string, table: seq<(string, T)>)
    requires EqualsIgnoreCase(s, t)
    ensures Lookup(s, table) == Lookup(t, table)
  {
    if table != [] {
      UpperMatchesIsToUpper(s, table[0].0);
      UpperMatchesIsToUpper(t, table[0].0);
      LookupIgnoresCase(s, t, table[1..]);
    }
  }
}

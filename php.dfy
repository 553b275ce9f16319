/** The few PHP built-ins that the modelled code relies on, stated over Dafny
    strings and sequences: `trim`, `strtolower`, negative-offset `substr`,
    `explode`/`implode` with a one-character or a fixed separator, the
    truthiness of strings, and `array_intersect`/`array_diff` on lists. */
module Php {

  // ---------------------------------------------------------------------
  // trim
  // ---------------------------------------------------------------------

  /** The characters PHP's `trim` strips by default: space, tab, newline,
      carriage return, NUL and vertical tab. */
  predicate IsTrimmable(c: char) {
    c == ' ' || c == '\t' || c == '\n' || c == '\r' || c == '\U{0000}' || c == '\U{000B}'
  }

  predicate IsBlank(s: string) {
    forall i :: 0 <= i < |s| ==> IsTrimmable(s[i])
  }

  lemma BlankConcat(a: string, b: string)
    requires IsBlank(a) && IsBlank(b)
    ensures IsBlank(a + b)
  {
    forall i | 0 <= i < |a + b| ensures IsTrimmable((a + b)[i]) {
      if i >= |a| { assert (a + b)[i] == b[i - |a|]; }
    }
  }

  /** `ltrim`: drop leading trimmable characters. */
  function TrimLeft(s: string): (r: string)
    ensures |r| <= |s| && r == s[|s| - |r|..] && IsBlank(s[..|s| - |r|])
    ensures r == [] || !IsTrimmable(r[0])
    decreases |s|
  {
    if |s| > 0 && IsTrimmable(s[0]) then
      var r := TrimLeft(s[1..]);
      assert s[..|s| - |r|] == [s[0]] + s[1..][..|s[1..]| - |r|];
      BlankConcat([s[0]], s[1..][..|s[1..]| - |r|]);
      r
    else
      assert s[..0] == [];
      s
  }

  /** `rtrim`: drop trailing trimmable characters. */
  function TrimRight(s: string): (r: string)
    ensures |r| <= |s| && r == s[..|r|] && IsBlank(s[|r|..])
    ensures r == [] || !IsTrimmable(r[|r| - 1])
    decreases |s|
  {
    if |s| > 0 && IsTrimmable(s[|s| - 1]) then
      var p := s[..|s| - 1];
      var r := TrimRight(p);
      assert s[|r|..] == p[|r|..] + [s[|s| - 1]];
      BlankConcat(p[|r|..], [s[|s| - 1]]);
      r
    else
      assert s[|s|..] == [];
      s
  }

  /** `trim($s)` with the default character list. */
  function Trim(s: string): string {
    TrimRight(TrimLeft(s))
  }

  /** The trimmed string is a slice of the input, with only trimmable
      characters cut away on either side, and it neither starts nor ends
      with a trimmable character. */
  lemma TrimIsCore(s: string) returns (i: nat, j: nat)
    ensures i <= j <= |s| && Trim(s) == s[i..j] && IsBlank(s[..i]) && IsBlank(s[j..])
    ensures Trim(s) == [] || (!IsTrimmable(Trim(s)[0]) && !IsTrimmable(Trim(s)[|Trim(s)| - 1]))
  {
    var l := TrimLeft(s);
    var t := TrimRight(l);
    i := |s| - |l|;
    j := i + |t|;
    assert t == s[i..j] by {
      assert t == l[..|t|] && l == s[i..];
    }
    assert IsBlank(s[j..]) by {
      assert l[|t|..] == s[j..];
    }
    assert t == [] || !IsTrimmable(t[0]) by {
      if t != [] {
        assert t[0] == l[0];
      }
    }
  }

  /** A string trims to `''` exactly when it consists of trimmable
      characters only. */
  lemma TrimEmptyIffBlank(s: string)
    ensures Trim(s) == "" <==> IsBlank(s)
  {
    var l := TrimLeft(s);
    var k := |s| - |l|;
    if !IsBlank(s) {
      var m :| 0 <= m < |s| && !IsTrimmable(s[m]);
      assert l[m - k] == s[m];
    }
  }

  /** `ltrim` removes exactly a blank prefix in front of a part that does not
      start with a trimmable character. */
  lemma {:induction false} TrimLeftSkips(blank: string, rest: string)
    requires IsBlank(blank)
    requires rest == [] || !IsTrimmable(rest[0])
    ensures TrimLeft(blank + rest) == rest
    decreases |blank|
  {
    if blank == [] {
      assert blank + rest == rest;
    } else {
      assert (blank + rest)[1..] == blank[1..] + rest;
      TrimLeftSkips(blank[1..], rest);
    }
  }

  /** `rtrim` removes exactly a blank suffix behind a part that does not end
      with a trimmable character. */
  lemma {:induction false} TrimRightSkips(rest: string, blank: string)
    requires IsBlank(blank)
    requires rest == [] || !IsTrimmable(rest[|rest| - 1])
    ensures TrimRight(rest + blank) == rest
    decreases |blank|
  {
    if blank == [] {
      assert rest + blank == rest;
    } else {
      var s := rest + blank;
      assert s[..|s| - 1] == rest + blank[..|blank| - 1];
      TrimRightSkips(rest, blank[..|blank| - 1]);
    }
  }

  /** `trim` of a blank-padded string that has a non-blank first and last
      character is that string without the padding. */
  lemma TrimPadded(left: string, core: string, right: string)
    requires IsBlank(left) && IsBlank(right)
    requires |core| > 0 && !IsTrimmable(core[0]) && !IsTrimmable(core[|core| - 1])
    ensures Trim(left + core + right) == core
  {
    assert left + core + right == left + (core + right);
    TrimLeftSkips(left, core + right);
    TrimRightSkips(core, right);
  }

  /** Trimming twice is trimming once. */
  lemma TrimIdempotent(s: string)
    ensures Trim(Trim(s)) == Trim(s)
  {
    var t := Trim(s);
    var _, _ := TrimIsCore(s);
    assert TrimLeft(t) == t by {
      if t != [] { assert !IsTrimmable(t[0]); }
    }
  }

  // ---------------------------------------------------------------------
  // strtolower, substr, ends-with
  // ---------------------------------------------------------------------

  /** `strtolower` on one character: ASCII `A`..`Z` only (whatever the locale,
      as in PHP 8.2 and later). */
  function LowerChar(c: char): char {
    if 'A' <= c <= 'Z' then (c as int + 32) as char else c
  }

  function Lower(s: string): (r: string)
    ensures |r| == |s|
    ensures forall i :: 0 <= i < |s| ==> r[i] == LowerChar(s[i])
  {
    seq(|s|, i requires 0 <= i < |s| => LowerChar(s[i]))
  }

  /** Lower-casing commutes with taking a suffix. */
  lemma LowerSuffix(s: string, k: nat)
    requires k <= |s|
    ensures Lower(s[k..]) == Lower(s)[k..]
  {
  }

  /** `substr($s, -$n)` for `$n > 0`: the last `$n` characters, or the whole
      string when it is shorter than that. */
  function SubstrTail(s: string, n: nat): (r: string)
    requires n > 0
    ensures |r| == if n <= |s| then n else |s|
  {
    if n <= |s| then s[|s| - n..] else s
  }

  /** `substr($s, 0, $n)`: the first `$n` characters, or the whole string. */
  function Prefix(s: string, n: nat): (r: string)
    ensures |r| == if n <= |s| then n else |s|
    ensures r <= s
  {
    if n <= |s| then s[..n] else s
  }

  predicate EndsWith(s: string, suffix: string) {
    |suffix| <= |s| && s[|s| - |suffix|..] == suffix
  }

  /** PHP's truthiness of a string: everything except `''` and `'0'`. This is
      also what `empty()` negates for a string. */
  predicate Truthy(s: string) {
    s != "" && s != "0"
  }

  // ---------------------------------------------------------------------
  // explode / implode
  // ---------------------------------------------------------------------

  /** `explode($sep, $s)` for a one-character separator: the pieces between
      separators, in order; a string without a separator is one piece. */
  function Split(s: string, sep: char): (r: seq<string>)
    ensures |r| >= 1
    ensures forall p :: p in r ==> sep !in p
    decreases |s|
  {
    if |s| == 0 then [""]
    else
      var rest := Split(s[1..], sep);
      if s[0] == sep then [""] + rest
      else [[s[0]] + rest[0]] + rest[1..]
  }

  /** `implode($sep, $parts)`. */
  function Join(parts: seq<string>, sep: string): string
    decreases |parts|
  {
    if |parts| == 0 then ""
    else if |parts| == 1 then parts[0]
    else parts[0] + sep + Join(parts[1..], sep)
  }

  /** Joining the pieces of a split with the same separator gives back the
      original string. */
  lemma {:induction false} JoinSplit(s: string, sep: char)
    ensures Join(Split(s, sep), [sep]) == s
    decreases |s|
  {
    if |s| > 0 {
      var rest := Split(s[1..], sep);
      JoinSplit(s[1..], sep);
      if s[0] == sep {
        assert Split(s, sep) == [""] + rest;
        assert ([""] + rest)[1..] == rest;
      } else {
        var r := Split(s, sep);
        assert r == [[s[0]] + rest[0]] + rest[1..];
        if |rest| == 1 {
          assert r == [[s[0]] + rest[0]];
        } else {
          assert r[1..] == rest[1..];
          assert Join(rest, [sep]) == rest[0] + [sep] + Join(rest[1..], [sep]);
        }
      }
    }
  }

  /** Splitting a non-empty join of separator-free pieces gives back the
      pieces. */
  lemma {:induction false} SplitJoin(parts: seq<string>, sep: char)
    requires |parts| >= 1
    requires forall p :: p in parts ==> sep !in p
    ensures Split(Join(parts, [sep]), sep) == parts
    decreases |parts|, |parts[0]|
  {
    var p := parts[0];
    if |p| == 0 {
      if |parts| > 1 {
        SplitJoin(parts[1..], sep);
        assert Join(parts, [sep]) == [sep] + Join(parts[1..], [sep]);
        assert ([sep] + Join(parts[1..], [sep]))[1..] == Join(parts[1..], [sep]);
      }
    } else {
      var tail := [p[1..]] + parts[1..];
      assert sep !in p by { assert p in parts; }
      forall x | 0 <= x < |p[1..]| ensures p[1..][x] != sep {
        assert p[1..][x] in p;
      }
      forall q | q in tail ensures sep !in q {
        if q != p[1..] { assert q in parts; }
      }
      SplitJoin(tail, sep);
      var s := Join(parts, [sep]);
      assert s == [p[0]] + Join(tail, [sep]) by {
        if |parts| == 1 {
          assert p == [p[0]] + p[1..];
        } else {
          assert tail[1..] == parts[1..];
          assert p == [p[0]] + p[1..];
        }
      }
      assert p[0] != sep by { assert p[0] in p; }
      assert s[1..] == Join(tail, [sep]);
      assert Split(s, sep) == [[p[0]] + p[1..]] + tail[1..];
      assert tail[1..] == parts[1..];
      assert [p[0]] + p[1..] == p;
    }
  }

  // ---------------------------------------------------------------------
  // array_intersect / array_diff on lists
  // ---------------------------------------------------------------------

  /** `array_intersect($a, $b)`: the elements of `$a` that occur in `$b`, in
      the order of `$a` (the preserved keys are not modelled). */
  function Intersect<T(==,!new)>(a: seq<T>, b: seq<T>): (r: seq<T>)
    ensures forall x :: x in r <==> x in a && x in b
    ensures |r| <= |a|
  {
    if a == [] then []
    else if a[0] in b then [a[0]] + Intersect(a[1..], b)
    else Intersect(a[1..], b)
  }

  /** `array_diff($a, $b)`: the elements of `$a` that do not occur in `$b`, in
      the order of `$a`. */
  function Diff<T(==,!new)>(a: seq<T>, b: seq<T>): (r: seq<T>)
    ensures forall x :: x in r <==> x in a && x !in b
    ensures |r| <= |a|
  {
    if a == [] then []
    else if a[0] in b then Diff(a[1..], b)
    else [a[0]] + Diff(a[1..], b)
  }
}

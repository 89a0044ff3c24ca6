/**
  Shared vocabulary: an Option type and the handful of JavaScript string
  operations the application relies on (`toLowerCase`, `toUpperCase`, `trim`,
  `includes`, `startsWith`, `endsWith`, `split`, `join`) together with the
  code-unit order that `localeCompare` reduces to on the ASCII timestamps the
  application sorts.
*/
module Common {

  datatype Option<+T> = None | Some(value: T) {
    function GetOr(default: T): T {
      match this
      case Some(v) => v
      case None => default
    }
  }

  /** JavaScript truthiness of an optional string: present and non-empty. */
  predicate Truthy(s: Option<string>) {
    s.Some? && s.value != ""
  }

  /** `s || d` on an optional string. */
  function OrElse(s: Option<string>, d: string): (r: string)
    ensures Truthy(s) ==> r == s.value
    ensures !Truthy(s) ==> r == d
  {
    if Truthy(s) then s.value else d
  }

  // ---------------------------------------------------------------- case

  function LowerChar(c: char): char {
    if 'A' <= c <= 'Z' then (c as int + 32) as char else c
  }

  function UpperChar(c: char): char {
    if 'a' <= c <= 'z' then (c as int - 32) as char else c
  }

  function ToLower(s: string): (r: string)
    ensures |r| == |s|
    ensures forall i :: 0 <= i < |s| ==> r[i] == LowerChar(s[i])
  {
    if s == [] then [] else [LowerChar(s[0])] + ToLower(s[1..])
  }

  function ToUpper(s: string): (r: string)
    ensures |r| == |s|
    ensures forall i :: 0 <= i < |s| ==> r[i] == UpperChar(s[i])
  {
    if s == [] then [] else [UpperChar(s[0])] + ToUpper(s[1..])
  }

  /** Lower-casing twice is lower-casing once. */
  lemma ToLowerIdempotent(s: string)
    ensures ToLower(ToLower(s)) == ToLower(s)
  {
    var t := ToLower(s);
    assert forall i :: 0 <= i < |t| ==> LowerChar(t[i]) == t[i];
  }

  /** A lower-cased string contains no upper-case ASCII letter. */
  lemma ToLowerHasNoUpper(s: string)
    ensures forall i :: 0 <= i < |ToLower(s)| ==> !('A' <= ToLower(s)[i] <= 'Z')
  {
  }

  /** An upper-cased string contains no lower-case ASCII letter. */
  lemma ToUpperHasNoLower(s: string)
    ensures forall i :: 0 <= i < |ToUpper(s)| ==> !('a' <= ToUpper(s)[i] <= 'z')
  {
  }

  // ---------------------------------------------------------------- trim

  /** The whitespace `String.prototype.trim` removes (ASCII part, NBSP, BOM). */
  predicate IsSpace(c: char) {
    c == ' ' || c == '\t' || c == '\n' || c == '\r' || c == '\U{B}' || c == '\U{C}'
    || c == '\U{A0}' || c == '\U{FEFF}'
  }

  /** `s.trimStart()`. Its shape is stated by `TrimStartFacts`. */
  function TrimStart(s: string): (r: string)
    ensures |r| <= |s|
  {
    if s != [] && IsSpace(s[0]) then TrimStart(s[1..]) else s
  }

  /** `s.trimEnd()`. Its shape is stated by `TrimEndFacts`. */
  function TrimEnd(s: string): (r: string)
    ensures |r| <= |s|
  {
    if s != [] && IsSpace(s[|s| - 1]) then TrimEnd(s[..|s| - 1]) else s
  }

  /** Trimming the start drops a prefix of white space and stops at the first other character. */
  lemma {:induction false} TrimStartFacts(s: string)
    ensures var r := TrimStart(s);
            r == s[|s| - |r|..]
            && (r == [] || !IsSpace(r[0]))
            && forall i :: 0 <= i < |s| - |r| ==> IsSpace(s[i])
  {
    if s != [] && IsSpace(s[0]) {
      TrimStartFacts(s[1..]);
    }
  }

  /** Trimming the end drops a suffix of white space and stops at the last other character. */
  lemma {:induction false} TrimEndFacts(s: string)
    ensures var r := TrimEnd(s);
            r == s[..|r|]
            && (r == [] || !IsSpace(r[|r| - 1]))
            && forall i :: |r| <= i < |s| ==> IsSpace(s[i])
  {
    if s != [] && IsSpace(s[|s| - 1]) {
      TrimEndFacts(s[..|s| - 1]);
    }
  }

  /** `s.trim()`: the longest slice of `s` with no whitespace at either end (see `TrimFacts`). */
  function Trim(s: string): (r: string)
    ensures |r| <= |s|
  {
    TrimEnd(TrimStart(s))
  }

  /** The trimmed text is a slice of `s` that neither starts nor ends with white space. */
  lemma TrimFacts(s: string)
    ensures exists i :: OccursAt(s, Trim(s), i)
    ensures Trim(s) == [] || (!IsSpace(Trim(s)[0]) && !IsSpace(Trim(s)[|Trim(s)| - 1]))
  {
    var a := TrimStart(s);
    var b := TrimEnd(a);
    TrimStartFacts(s);
    TrimEndFacts(a);
    assert Trim(s) == b;
    assert OccursAt(s, b, |s| - |a|);
    assert b != [] ==> b[0] == a[0];
  }

  /** `s.trim() === ""` exactly when every character of `s` is whitespace. */
  lemma {:induction false} TrimEmptyIffBlank(s: string)
    ensures Trim(s) == [] <==> forall i :: 0 <= i < |s| ==> IsSpace(s[i])
  {
    var a := TrimStart(s);
    TrimStartFacts(s);
    TrimEndFacts(a);
    if Trim(s) == [] {
      assert TrimEnd(a) == [];
    } else {
      assert TrimEnd(a) != [];
      assert a != [];
      assert !IsSpace(a[0]) && a[0] == s[|s| - |a|];
    }
  }

  // ---------------------------------------------------------------- search

  /** `sub` occurs in `s` starting at index `i`. */
  predicate OccursAt(s: string, sub: string, i: int) {
    0 <= i <= |s| - |sub| && s[i..i + |sub|] == sub
  }

  predicate StartsWith(s: string, p: string) {
    |p| <= |s| && s[..|p|] == p
  }

  predicate EndsWith(s: string, suffix: string) {
    |suffix| <= |s| && s[|s| - |suffix|..] == suffix
  }

  /** `s.includes(sub)`. */
  predicate Contains(s: string, sub: string)
    decreases |s|
  {
    StartsWith(s, sub) || (s != [] && Contains(s[1..], sub))
  }

  /** `Contains` is "occurs at some position". */
  lemma {:induction false} ContainsAt(s: string, sub: string)
    ensures Contains(s, sub) <==> exists i :: OccursAt(s, sub, i)
    decreases |s|
  {
    if StartsWith(s, sub) {
      assert OccursAt(s, sub, 0);
    } else if s == [] {
    } else {
      ContainsAt(s[1..], sub);
      if exists i :: OccursAt(s, sub, i) {
        var i :| OccursAt(s, sub, i);
        assert i != 0;
        assert OccursAt(s[1..], sub, i - 1);
      }
      if Contains(s[1..], sub) {
        var j :| OccursAt(s[1..], sub, j);
        assert OccursAt(s, sub, j + 1);
      }
    }
  }

  /** Every string includes the empty string. */
  lemma ContainsEmpty(s: string)
    ensures Contains(s, "")
  {
    assert StartsWith(s, "");
  }

  // ---------------------------------------------------------------- split / join

  /** `s.split(sep)` for a one-character separator: never empty, no part holds `sep`. */
  function Split(s: string, sep: char): (parts: seq<string>)
    ensures |parts| >= 1
    ensures forall k :: 0 <= k < |parts| ==> sep !in parts[k]
    decreases |s|
  {
    if s == [] then [""]
    else
      var rest := Split(s[1..], sep);
      if s[0] == sep then [""] + rest
      else [[s[0]] + rest[0]] + rest[1..]
  }

  /** `parts.join(sep)`. */
  function Join(parts: seq<string>, sep: char): string
  {
    if |parts| == 0 then ""
    else if |parts| == 1 then parts[0]
    else parts[0] + [sep] + Join(parts[1..], sep)
  }

  /** Splitting and joining on the same separator gives back the original text. */
  lemma {:induction false} JoinSplit(s: string, sep: char)
    ensures Join(Split(s, sep), sep) == s
    decreases |s|
  {
    if s != [] {
      var rest := Split(s[1..], sep);
      JoinSplit(s[1..], sep);
      if s[0] == sep {
        assert Split(s, sep) == [""] + rest;
        assert Join([""] + rest, sep) == "" + [sep] + Join(rest, sep);
      } else {
        var parts := [[s[0]] + rest[0]] + rest[1..];
        assert Split(s, sep) == parts;
        if |rest| == 1 {
          assert Join(parts, sep) == [s[0]] + rest[0];
        } else {
          assert Join(rest, sep) == rest[0] + [sep] + Join(rest[1..], sep);
          assert parts[1..] == rest[1..];
        }
      }
    }
  }

  /** A text without the separator splits into itself alone. */
  lemma {:induction false} SplitNoSep(s: string, sep: char)
    requires sep !in s
    ensures Split(s, sep) == [s]
    decreases |s|
  {
    if s != [] {
      assert sep !in s[1..] by {
        forall i | 0 <= i < |s[1..]| ensures s[1..][i] != sep { assert s[1..][i] == s[i + 1]; }
      }
      SplitNoSep(s[1..], sep);
      assert [s[0]] + s[1..] == s;
    }
  }

  /** A text free of the separator, then the separator, then more text, splits at that separator first. */
  lemma {:induction false} SplitAfter(a: string, b: string, sep: char)
    requires sep !in a
    ensures Split(a + [sep] + b, sep) == [a] + Split(b, sep)
    decreases |a|
  {
    var s := a + [sep] + b;
    if a == [] {
      assert s == [sep] + b && s[1..] == b;
    } else {
      assert sep !in a[1..];
      SplitAfter(a[1..], b, sep);
      assert s[0] == a[0] && s[1..] == a[1..] + [sep] + b;
      assert [a[0]] + a[1..] == a;
    }
  }

  /** JavaScript truthiness of a string: non-empty (`.filter(Boolean)`). */
  predicate NonBlank(d: string) {
    d != ""
  }

  // ---------------------------------------------------------------- order

  /** Code-unit lexicographic order: `a.localeCompare(b) <= 0` on ASCII text. */
  predicate StrLe(a: string, b: string)
    decreases |a|
  {
    a == [] || (b != [] && (a[0] < b[0] || (a[0] == b[0] && StrLe(a[1..], b[1..]))))
  }

  lemma {:induction false} StrLeTotal(a: string, b: string)
    ensures StrLe(a, b) || StrLe(b, a)
    decreases |a|
  {
    if a != [] && b != [] && a[0] == b[0] {
      StrLeTotal(a[1..], b[1..]);
    }
  }

  lemma {:induction false} StrLeTrans(a: string, b: string, c: string)
    requires StrLe(a, b) && StrLe(b, c)
    ensures StrLe(a, c)
    decreases |a|
  {
    if a != [] && a[0] == b[0] && b[0] == c[0] {
      StrLeTrans(a[1..], b[1..], c[1..]);
    }
  }

  lemma {:induction false} StrLeAntisym(a: string, b: string)
    requires StrLe(a, b) && StrLe(b, a)
    ensures a == b
    decreases |a|
  {
    if a != [] {
      StrLeAntisym(a[1..], b[1..]);
      assert a == [a[0]] + a[1..] && b == [b[0]] + b[1..];
    }
  }

  lemma StrLeRefl(a: string)
    ensures StrLe(a, a)
  {
  }

  // ---------------------------------------------------------------- numbers

  function Sum(xs: seq<real>): real
  {
    if xs == [] then 0.0 else xs[0] + Sum(xs[1..])
  }

  function SumInt(xs: seq<int>): int
  {
    if xs == [] then 0 else xs[0] + SumInt(xs[1..])
  }

  lemma {:induction false} SumAppend(xs: seq<real>, x: real)
    ensures Sum(xs + [x]) == Sum(xs) + x
  {
    if xs != [] {
      assert (xs + [x])[1..] == xs[1..] + [x];
      SumAppend(xs[1..], x);
    }
  }

  lemma {:induction false} SumIntAppend(xs: seq<int>, x: int)
    ensures SumInt(xs + [x]) == SumInt(xs) + x
  {
    if xs != [] {
      assert (xs + [x])[1..] == xs[1..] + [x];
      SumIntAppend(xs[1..], x);
    }
  }

  function MaxInt(a: int, b: int): int { if a >= b then a else b }
  function MinInt(a: int, b: int): int { if a <= b then a else b }
  function MaxReal(a: real, b: real): real { if a >= b then a else b }
  function MinReal(a: real, b: real): real { if a <= b then a else b }

  // ---------------------------------------------------------------- lists

  /** `xs.filter(keep)`. */
  function Filter<T>(xs: seq<T>, keep: T -> bool): (r: seq<T>)
    ensures |r| <= |xs|
  {
    if xs == [] then [] else (if keep(xs[0]) then [xs[0]] else []) + Filter(xs[1..], keep)
  }

  /** An element is kept exactly when it is in `xs` and passes `keep`. */
  lemma {:induction false} FilterMembers<T>(xs: seq<T>, keep: T -> bool)
    ensures forall x :: x in Filter(xs, keep) <==> x in xs && keep(x)
  {
    if xs != [] {
      FilterMembers(xs[1..], keep);
      assert xs == [xs[0]] + xs[1..];
    }
  }

  /** `xs.map(f)`. */
  function MapSeq<T, U>(xs: seq<T>, f: T -> U): (r: seq<U>)
    ensures |r| == |xs|
  {
    if xs == [] then [] else [f(xs[0])] + MapSeq(xs[1..], f)
  }

  /** Entry `i` of `xs.map(f)` is `f(xs[i])`. */
  lemma {:induction false} MapSeqAt<T, U>(xs: seq<T>, f: T -> U)
    ensures forall i :: 0 <= i < |xs| ==> MapSeq(xs, f)[i] == f(xs[i])
  {
    if xs != [] {
      MapSeqAt(xs[1..], f);
    }
  }

  /** `xs` can be obtained from `ys` by deleting entries (order kept). */
  predicate SubSeq<T(==)>(xs: seq<T>, ys: seq<T>)
    decreases |ys|
  {
    xs == [] || (ys != [] && ((xs[0] == ys[0] && SubSeq(xs[1..], ys[1..])) || SubSeq(xs, ys[1..])))
  }

  /** A filter keeps the order of what it keeps. */
  lemma {:induction false} FilterSubSeq<T>(xs: seq<T>, keep: T -> bool)
    ensures SubSeq(Filter(xs, keep), xs)
  {
    if xs != [] {
      FilterSubSeq(xs[1..], keep);
      if keep(xs[0]) {
        assert Filter(xs, keep) == [xs[0]] + Filter(xs[1..], keep);
        assert Filter(xs, keep)[1..] == Filter(xs[1..], keep);
      } else {
        assert Filter(xs, keep) == Filter(xs[1..], keep);
      }
    }
  }

  /** A filter that rejects nothing returns its input. */
  lemma {:induction false} FilterAll<T>(xs: seq<T>, keep: T -> bool)
    requires forall x :: x in xs ==> keep(x)
    ensures Filter(xs, keep) == xs
  {
    if xs != [] {
      FilterAll(xs[1..], keep);
    }
  }

  /** `xs.slice(0, n)`. */
  function Take<T>(xs: seq<T>, n: nat): (r: seq<T>)
    ensures |r| == MinInt(|xs|, n)
    ensures r == xs[..|r|]
  {
    if |xs| <= n then xs else xs[..n]
  }

  /** `xs.filter(keep)` over a list grown at the end. */
  /** `Filter` of a list with one more element in front. */
  lemma FilterCons<T>(x: T, xs: seq<T>, keep: T -> bool)
    ensures Filter([x] + xs, keep) == (if keep(x) then [x] else []) + Filter(xs, keep)
  {
    assert ([x] + xs)[1..] == xs;
  }

  lemma {:induction false} FilterSnoc<T>(xs: seq<T>, x: T, keep: T -> bool)
    ensures Filter(xs + [x], keep) == Filter(xs, keep) + (if keep(x) then [x] else [])
  {
    if xs != [] {
      assert (xs + [x])[1..] == xs[1..] + [x];
      FilterSnoc(xs[1..], x, keep);
    }
  }

  /** `String(n)` of a natural number, in decimal. */
  function NatToString(n: nat): (s: string)
    ensures |s| >= 1
  {
    var d := ['0' + (n % 10) as char];
    if n < 10 then d else NatToString(n / 10) + d
  }

  /** Every character of `String(n)` is a decimal digit. */
  lemma {:induction false} NatToStringDigits(n: nat)
    ensures forall i :: 0 <= i < |NatToString(n)| ==> '0' <= NatToString(n)[i] <= '9'
  {
    if n >= 10 {
      NatToStringDigits(n / 10);
    }
  }

  lemma {:induction false} SubSeqRefl<T>(xs: seq<T>)
    ensures SubSeq(xs, xs)
  {
    if xs != [] {
      SubSeqRefl(xs[1..]);
    }
  }

  /** Every entry of a sub-list is an entry of the list. */
  lemma {:induction false} SubSeqMembers<T>(xs: seq<T>, ys: seq<T>)
    requires SubSeq(xs, ys)
    ensures forall x :: x in xs ==> x in ys
    decreases |ys|
  {
    if xs != [] {
      if xs[0] == ys[0] && SubSeq(xs[1..], ys[1..]) {
        SubSeqMembers(xs[1..], ys[1..]);
        assert forall x :: x in xs ==> x == xs[0] || x in xs[1..];
      } else {
        SubSeqMembers(xs, ys[1..]);
      }
    }
  }

  /** A sub-list of a sub-list is a sub-list. */
  lemma {:induction false} SubSeqTrans<T>(xs: seq<T>, ys: seq<T>, zs: seq<T>)
    requires SubSeq(xs, ys) && SubSeq(ys, zs)
    ensures SubSeq(xs, zs)
    decreases |zs|
  {
    if xs != [] {
      if ys[0] == zs[0] && SubSeq(ys[1..], zs[1..]) {
        if xs[0] == ys[0] && SubSeq(xs[1..], ys[1..]) {
          SubSeqTrans(xs[1..], ys[1..], zs[1..]);
        } else {
          SubSeqTrans(xs, ys[1..], zs[1..]);
        }
      } else {
        SubSeqTrans(xs, ys, zs[1..]);
      }
    }
  }

  // ---------------------------------------------------------------- newest first

  /** Ordered by a string key, largest first (`(b.key || "").localeCompare(a.key || "")`). */
  predicate NewestFirst<T>(s: seq<T>, key: T -> string) {
    forall i, j :: 0 <= i < j < |s| ==> StrLe(key(s[j]), key(s[i]))
  }

  /** Insert after every element whose key is not smaller, so equal keys keep their order. */
  function InsertNewest<T>(s: seq<T>, x: T, key: T -> string): (r: seq<T>)
    ensures multiset(r) == multiset(s) + multiset{x}
  {
    if s == [] then [x]
    else if !StrLe(key(x), key(s[0])) then [x] + s
    else
      assert s == [s[0]] + s[1..];
      [s[0]] + InsertNewest(s[1..], x, key)
  }

  lemma {:induction false} InsertNewestSorted<T>(s: seq<T>, x: T, key: T -> string)
    requires NewestFirst(s, key)
    ensures NewestFirst(InsertNewest(s, x, key), key)
  {
    if s != [] {
      if !StrLe(key(x), key(s[0])) {
        StrLeTotal(key(x), key(s[0]));
        forall j | 0 < j < |s| ensures StrLe(key(s[j]), key(x)) {
          StrLeTrans(key(s[j]), key(s[0]), key(x));
        }
        var r := [x] + s;
        forall i, j | 0 <= i < j < |r| ensures StrLe(key(r[j]), key(r[i])) {
          if i == 0 {
            if j > 1 {
              assert r[j] == s[j - 1];
            }
          } else {
            assert r[i] == s[i - 1] && r[j] == s[j - 1];
          }
        }
      } else {
        InsertNewestSorted(s[1..], x, key);
        var rest := InsertNewest(s[1..], x, key);
        forall e | e in rest ensures StrLe(key(e), key(s[0])) {
          assert e in multiset(rest);
          assert e in s[1..] || e == x;
        }
        var r := [s[0]] + rest;
        forall i, j | 0 <= i < j < |r| ensures StrLe(key(r[j]), key(r[i])) {
          if i == 0 {
            assert r[j] == rest[j - 1] && rest[j - 1] in rest;
          } else {
            assert r[i] == rest[i - 1] && r[j] == rest[j - 1];
          }
        }
      }
    }
  }

  /** A stable sort, largest key first. */
  function SortNewest<T>(s: seq<T>, key: T -> string): (r: seq<T>)
    ensures multiset(r) == multiset(s)
  {
    if s == [] then [] else
      assert s == s[..|s| - 1] + [s[|s| - 1]];
      InsertNewest(SortNewest(s[..|s| - 1], key), s[|s| - 1], key)
  }

  lemma {:induction false} SortNewestSorted<T>(s: seq<T>, key: T -> string)
    ensures NewestFirst(SortNewest(s, key), key)
  {
    if s != [] {
      SortNewestSorted(s[..|s| - 1], key);
      InsertNewestSorted(SortNewest(s[..|s| - 1], key), s[|s| - 1], key);
    }
  }

  lemma SortNewestSnoc<T>(s: seq<T>, i: int, key: T -> string)
    requires 0 <= i < |s|
    ensures SortNewest(s[..i + 1], key) == InsertNewest(SortNewest(s[..i], key), s[i], key)
  {
    assert s[..i + 1][..i] == s[..i];
  }
}

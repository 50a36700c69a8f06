/**
 * The JavaScript array and string operations the page handlers are built
 * from: `filter`, `filter` by index, `includes` and `String.prototype.trim`.
 */
module JsArrays {

  /** `s.filter(p)`: the elements satisfying `p`, in their original order. */
  function Filter<T>(p: T -> bool, s: seq<T>): (r: seq<T>)
    ensures |r| <= |s|
  {
    if s == [] then []
    else (if p(s[0]) then [s[0]] else []) + Filter(p, s[1..])
  }

  lemma {:induction false} FilterAppend<T>(p: T -> bool, a: seq<T>, b: seq<T>)
    ensures Filter(p, a + b) == Filter(p, a) + Filter(p, b)
  {
    if a == [] {
      assert a + b == b;
    } else {
      var head := if p(a[0]) then [a[0]] else [];
      assert (a + b)[0] == a[0];
      assert (a + b)[1..] == a[1..] + b;
      assert Filter(p, a + b) == head + Filter(p, a[1..] + b);
      FilterAppend(p, a[1..], b);
      assert Filter(p, a) == head + Filter(p, a[1..]);
    }
  }

  /** Membership: what `filter` keeps is exactly what was there and passes. */
  lemma {:induction false} FilterMembers<T>(p: T -> bool, s: seq<T>)
    ensures forall x :: x in Filter(p, s) <==> x in s && p(x)
  {
    if s != [] {
      FilterMembers(p, s[1..]);
      assert s == [s[0]] + s[1..];
    }
  }

  /** Multiplicity: every kept value occurs as often as in the input, the rest never. */
  lemma {:induction false} FilterMultiset<T>(p: T -> bool, s: seq<T>)
    ensures forall x :: multiset(Filter(p, s))[x] == if p(x) then multiset(s)[x] else 0
  {
    if s != [] {
      FilterMultiset(p, s[1..]);
      assert s == [s[0]] + s[1..];
      assert multiset(s) == multiset{s[0]} + multiset(s[1..]);
    }
  }

  /** `filter` leaves a sequence alone exactly when every element passes. */
  lemma {:induction false} FilterKeepsAllIff<T>(p: T -> bool, s: seq<T>)
    ensures Filter(p, s) == s <==> forall i :: 0 <= i < |s| ==> p(s[i])
  {
    if s != [] {
      FilterKeepsAllIff(p, s[1..]);
      if !p(s[0]) {
        assert |Filter(p, s)| < |s| by { assert |Filter(p, s[1..])| <= |s[1..]|; }
      }
    }
  }

  lemma {:induction false} FilterIdempotent<T>(p: T -> bool, s: seq<T>)
    ensures Filter(p, Filter(p, s)) == Filter(p, s)
  {
    if s != [] {
      var head := if p(s[0]) then [s[0]] else [];
      assert Filter(p, head) == head;
      FilterAppend(p, head, Filter(p, s[1..]));
      FilterIdempotent(p, s[1..]);
    }
  }

  /** `s.filter((_, i) => i !== index)`: drops the element at `index`, if any. */
  function Without<T>(s: seq<T>, index: int): (r: seq<T>)
    ensures |r| <= |s|
  {
    if s == [] then []
    else (if index == 0 then [] else [s[0]]) + Without(s[1..], index - 1)
  }

  /**
   * Removing at an index in range yields the elements before and after it,
   * in their order; an index out of range removes nothing.
   */
  lemma {:induction false} WithoutIsSplice<T>(s: seq<T>, index: int)
    ensures 0 <= index < |s| ==> Without(s, index) == s[..index] + s[index + 1..]
    ensures !(0 <= index < |s|) ==> Without(s, index) == s
  {
    if s != [] {
      WithoutIsSplice(s[1..], index - 1);
      if index == 0 {
        assert s[..0] + s[1..] == s[1..];
      } else if 0 < index < |s| {
        assert s[..index] == [s[0]] + s[1..][..index - 1];
        assert s[index + 1..] == s[1..][index..];
      } else {
        assert s == [s[0]] + s[1..];
      }
    }
  }

  /** What `removeField`/`removeInfoBlock` promise: one element fewer, order kept. */
  lemma WithoutShape<T>(s: seq<T>, index: int)
    requires 0 <= index < |s|
    ensures |Without(s, index)| == |s| - 1
    ensures forall j :: 0 <= j < index ==> Without(s, index)[j] == s[j]
    ensures forall j :: index <= j < |s| - 1 ==> Without(s, index)[j] == s[j + 1]
  {
    WithoutIsSplice(s, index);
  }

  /** No value occurs twice. */
  predicate NoDup<T(==)>(s: seq<T>) {
    forall i, j :: 0 <= i < j < |s| ==> s[i] != s[j]
  }

  /** A duplicate-free sequence has as many distinct values as positions. */
  lemma {:induction false} NoDupCardinality<T>(s: seq<T>)
    requires NoDup(s)
    ensures |set x | x in s| == |s|
  {
    if s != [] {
      NoDupCardinality(s[1..]);
      var rest := set x | x in s[1..];
      assert (set x | x in s) == rest + {s[0]};
      assert s[0] !in rest;
    }
  }

  lemma NoDupCons<T>(x: T, s: seq<T>)
    ensures NoDup([x] + s) <==> x !in s && NoDup(s)
  {
    var t := [x] + s;
    if x !in s && NoDup(s) {
      forall i, j | 0 <= i < j < |t| ensures t[i] != t[j] {
        if i > 0 {
          assert t[i] == s[i - 1] && t[j] == s[j - 1];
        } else {
          assert t[j] == s[j - 1];
        }
      }
    }
    if NoDup(t) {
      assert forall i, j :: 0 <= i < j < |s| ==> s[i] == t[i + 1] && s[j] == t[j + 1];
      forall k | 0 <= k < |s| ensures s[k] != x {
        assert t[0] == x && t[k + 1] == s[k];
      }
    }
  }

  /** `filter` never creates duplicates. */
  lemma {:induction false} FilterNoDup<T>(p: T -> bool, s: seq<T>)
    requires NoDup(s)
    ensures NoDup(Filter(p, s))
  {
    if s != [] {
      assert s == [s[0]] + s[1..];
      NoDupCons(s[0], s[1..]);
      FilterNoDup(p, s[1..]);
      FilterMembers(p, s[1..]);
      if p(s[0]) {
        NoDupCons(s[0], Filter(p, s[1..]));
      }
    }
  }

  // ---------------------------------------------------------------------
  // String.prototype.trim

  /** The ECMAScript WhiteSpace and LineTerminator code points that `trim` strips. */
  predicate IsWhite(c: char) {
    c == '\t' || c == '\n' || c == '\r' || c == ' ' || c == '\U{000B}' || c == '\U{000C}'
    || c == '\U{00A0}' || c == '\U{1680}' || ('\U{2000}' <= c <= '\U{200A}')
    || c == '\U{2028}' || c == '\U{2029}' || c == '\U{202F}' || c == '\U{205F}'
    || c == '\U{3000}' || c == '\U{FEFF}'
  }

  predicate IsBlank(s: string) {
    forall i :: 0 <= i < |s| ==> IsWhite(s[i])
  }

  function TrimStart(s: string): (r: string)
    ensures |r| <= |s| && r == s[|s| - |r|..]
    ensures IsBlank(s[..|s| - |r|])
    ensures r != [] ==> !IsWhite(r[0])
  {
    if s != [] && IsWhite(s[0]) then
      var r := TrimStart(s[1..]);
      assert forall i :: 1 <= i < |s| - |r| ==> s[i] == s[1..][..|s| - 1 - |r|][i - 1];
      r
    else s
  }

  function TrimEnd(s: string): (r: string)
    ensures |r| <= |s| && r == s[..|r|]
    ensures IsBlank(s[|r|..])
    ensures r != [] ==> !IsWhite(r[|r| - 1])
  {
    if s != [] && IsWhite(s[|s| - 1]) then
      var r := TrimEnd(s[..|s| - 1]);
      assert forall i :: |r| <= i < |s| - 1 ==> s[i] == s[..|s| - 1][|r|..][i - |r|];
      r
    else s
  }

  /** `s.trim()` */
  function Trim(s: string): (r: string)
    ensures exists i, j :: 0 <= i <= j <= |s| && r == s[i..j] && IsBlank(s[..i]) && IsBlank(s[j..])
    ensures r != [] ==> !IsWhite(r[0]) && !IsWhite(r[|r| - 1])
  {
    var t := TrimStart(s);
    var r := TrimEnd(t);
    var i, j := |s| - |t|, |s| - |t| + |r|;
    assert r == s[i..j] && s[j..] == t[|r|..];
    r
  }

  lemma {:induction false} TrimStartEmptyIff(s: string)
    ensures TrimStart(s) == "" <==> IsBlank(s)
  {
    if s == [] {
    } else if IsWhite(s[0]) {
      TrimStartEmptyIff(s[1..]);
      BlankTail(s);
    } else {
      assert !IsWhite(s[0]);
    }
  }

  /** A string that starts with white space is blank exactly when its tail is. */
  lemma BlankTail(s: string)
    requires s != [] && IsWhite(s[0])
    ensures IsBlank(s) <==> IsBlank(s[1..])
  {
    if IsBlank(s[1..]) {
      forall i | 1 <= i < |s| ensures IsWhite(s[i]) {
        assert s[i] == s[1..][i - 1];
      }
    }
  }

  /** `s.trim() !== ""` holds exactly when `s` has a non-whitespace character. */
  lemma TrimEmptyIffBlank(s: string)
    ensures Trim(s) == "" <==> IsBlank(s)
  {
    TrimStartEmptyIff(s);
    var t := TrimStart(s);
    if t != "" {
      assert TrimEnd(t) != "" by {
        if TrimEnd(t) == "" {
          TrimEndNonEmpty(t);
        }
      }
    }
  }

  lemma {:induction false} TrimEndNonEmpty(t: string)
    requires t != "" && !IsWhite(t[0])
    ensures TrimEnd(t) != ""
  {
    if IsWhite(t[|t| - 1]) {
      TrimEndNonEmpty(t[..|t| - 1]);
    }
  }
}

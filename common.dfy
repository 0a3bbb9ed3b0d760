/** Values and helpers shared by every part of the leave-management model:
    optional values, the JSON scalars the browser stores, date fields, the few
    JavaScript string operations the application relies on, and the array
    operations `filter` and `findIndex`. */
module Common {

  datatype Option<T> = None | Some(value: T) {
    function GetOr(default: T): T {
      match this
      case Some(v) => v
      case None => default
    }
  }

  /** A scalar as JSON stores it. Balance fields start as numbers and become
      text once a form input edits them; a field an object lacks is Undefined. */
  datatype Value = Num(x: real) | Text(s: string) | Undefined

  /** JavaScript truthiness of a stored scalar (`null`, `false` and `NaN`
      never occur in these records). */
  predicate Falsy(v: Value) {
    v == Num(0.0) || v == Text("") || v == Undefined
  }

  /** `v || fallback` */
  function OrElse(v: Value, fallback: Value): (r: Value)
    ensures Falsy(v) ==> r == fallback
    ensures !Falsy(v) ==> r == v && !Falsy(r)
  {
    if Falsy(v) then fallback else v
  }

  /** A date input: the empty string, or a calendar day counted in whole days. */
  datatype DateField = Blank | On(day: int)

  function Abs(x: int): nat {
    if x < 0 then -x else x
  }

  function Min(a: int, b: int): int {
    if a <= b then a else b
  }

  function Max(a: int, b: int): int {
    if a <= b then b else a
  }

  // ---------------------------------------------------------------- strings

  /** `toLowerCase` on one character (ASCII letters only). */
  function LowerChar(c: char): char {
    if 'A' <= c <= 'Z' then (c as int - 'A' as int + 'a' as int) as char else c
  }

  function LowerCase(s: string): (r: string)
    ensures |r| == |s|
    ensures forall i :: 0 <= i < |s| ==> r[i] == LowerChar(s[i])
  {
    if s == [] then [] else [LowerChar(s[0])] + LowerCase(s[1..])
  }

  /** The characters `String.prototype.trim` strips (ASCII subset). */
  predicate IsSpace(c: char) {
    c == ' ' || c == '\t' || c == '\n' || c == '\r' || c == '\U{0B}' || c == '\U{0C}'
  }

  function TrimStart(s: string): string {
    if s != [] && IsSpace(s[0]) then TrimStart(s[1..]) else s
  }

  function TrimEnd(s: string): string {
    if s != [] && IsSpace(s[|s| - 1]) then TrimEnd(s[..|s| - 1]) else s
  }

  function Trim(s: string): string {
    TrimEnd(TrimStart(s))
  }

  /** `!s.trim()` holds exactly when every character of `s` is white space. */
  lemma {:induction false} TrimEmptyIff(s: string)
    ensures Trim(s) == "" <==> forall i :: 0 <= i < |s| ==> IsSpace(s[i])
  {
    TrimStartEmptyIff(s);
    var t := TrimStart(s);
    TrimStartShape(s);
    if t != [] {
      assert !IsSpace(t[0]);
      TrimEndKeepsNonSpaceHead(t);
    }
  }

  lemma {:induction false} TrimStartEmptyIff(s: string)
    ensures TrimStart(s) == "" <==> forall i :: 0 <= i < |s| ==> IsSpace(s[i])
  {
    if s != [] && IsSpace(s[0]) {
      TrimStartEmptyIff(s[1..]);
      assert forall i :: 1 <= i < |s| ==> s[i] == s[1..][i - 1];
    }
  }

  lemma {:induction false} TrimStartShape(s: string)
    ensures TrimStart(s) != [] ==> !IsSpace(TrimStart(s)[0])
  {
    if s != [] && IsSpace(s[0]) {
      TrimStartShape(s[1..]);
    }
  }

  lemma {:induction false} TrimEndKeepsNonSpaceHead(s: string)
    requires s != [] && !IsSpace(s[0])
    ensures TrimEnd(s) != []
  {
    if IsSpace(s[|s| - 1]) {
      TrimEndKeepsNonSpaceHead(s[..|s| - 1]);
    }
  }

  predicate OccursAt(s: string, sub: string, i: int) {
    0 <= i && i + |sub| <= |s| && s[i..i + |sub|] == sub
  }

  /** `s.includes(sub)` */
  predicate Contains(s: string, sub: string) {
    exists i :: 0 <= i <= |s| - |sub| && OccursAt(s, sub, i)
  }

  function CountChar(s: string, c: char): nat {
    if s == [] then 0 else (if s[0] == c then 1 else 0) + CountChar(s[1..], c)
  }

  lemma {:induction false} CountCharConcat(a: string, b: string, c: char)
    ensures CountChar(a + b, c) == CountChar(a, c) + CountChar(b, c)
  {
    if a == [] {
      assert a + b == b;
    } else {
      assert (a + b)[1..] == a[1..] + b;
      CountCharConcat(a[1..], b, c);
    }
  }

  lemma {:induction false} CountCharAbsent(s: string, c: char)
    requires c !in s
    ensures CountChar(s, c) == 0
  {
    if s != [] {
      assert s[0] in s;
      assert forall x :: x in s[1..] ==> x in s;
      CountCharAbsent(s[1..], c);
    }
  }

  // ------------------------------------------------------ array operations

  /** `s.filter(p)` */
  function Filter<T>(s: seq<T>, p: T -> bool): (r: seq<T>)
    ensures |r| <= |s|
  {
    if s == [] then [] else (if p(s[0]) then [s[0]] else []) + Filter(s[1..], p)
  }

  /** The filtered list holds exactly the elements that pass. */
  lemma {:induction false} FilterMembers<T>(s: seq<T>, p: T -> bool)
    ensures forall i :: 0 <= i < |Filter(s, p)| ==> Filter(s, p)[i] in s && p(Filter(s, p)[i])
    ensures forall i :: 0 <= i < |s| && p(s[i]) ==> s[i] in Filter(s, p)
  {
    if s != [] {
      FilterMembers(s[1..], p);
      var head := if p(s[0]) then [s[0]] else [];
      var r := Filter(s, p);
      assert r == head + Filter(s[1..], p);
      forall i | 0 <= i < |r| ensures r[i] in s && p(r[i]) {
        if i >= |head| {
          assert r[i] == Filter(s[1..], p)[i - |head|];
        }
      }
      forall i | 0 <= i < |s| && p(s[i]) ensures s[i] in r {
        if i > 0 {
          assert s[i] == s[1..][i - 1];
        }
      }
    }
  }

  lemma {:induction false} FilterConcat<T>(a: seq<T>, b: seq<T>, p: T -> bool)
    ensures Filter(a + b, p) == Filter(a, p) + Filter(b, p)
  {
    if a == [] {
      assert a + b == b;
    } else {
      var ab := a + b;
      var head := if p(a[0]) then [a[0]] else [];
      assert ab[0] == a[0] && ab[1..] == a[1..] + b;
      FilterConcat(a[1..], b, p);
      assert Filter(ab, p) == head + Filter(a[1..] + b, p);
      assert Filter(a, p) == head + Filter(a[1..], p);
    }
  }

  /** Filtering splits around any position. */
  lemma {:induction false} FilterAround<T>(s: seq<T>, k: int, p: T -> bool)
    requires 0 <= k < |s|
    ensures Filter(s, p) == Filter(s[..k], p) + Filter([s[k]], p) + Filter(s[k + 1..], p)
  {
    var before, at, after := s[..k], [s[k]], s[k + 1..];
    assert s == before + at + after;
    FilterConcat(before + at, after, p);
    FilterConcat(before, at, p);
  }

  /** Filtering a list whose every element passes gives the list back. */
  lemma {:induction false} FilterAll<T>(s: seq<T>, p: T -> bool)
    requires forall i :: 0 <= i < |s| ==> p(s[i])
    ensures Filter(s, p) == s
  {
    if s != [] {
      assert forall i :: 0 <= i < |s[1..]| ==> s[1..][i] == s[i + 1];
      FilterAll(s[1..], p);
    }
  }

  /** `s.findIndex(p)`: the first position satisfying `p`, or -1. */
  function FirstIndex<T>(s: seq<T>, p: T -> bool): (k: int)
    ensures -1 <= k < |s|
    ensures k >= 0 ==> p(s[k]) && forall j :: 0 <= j < k ==> !p(s[j])
    ensures k == -1 ==> forall j :: 0 <= j < |s| ==> !p(s[j])
  {
    FirstIndexFromSkips(s, p, 0);
    FirstIndexFrom(s, p, 0)
  }

  /** The search of `findIndex` from position `i` on. */
  function FirstIndexFrom<T>(s: seq<T>, p: T -> bool, i: nat): (k: int)
    requires i <= |s|
    ensures k == -1 || i <= k < |s|
    ensures k >= 0 ==> p(s[k])
    decreases |s| - i
  {
    if i == |s| then -1
    else if p(s[i]) then i
    else FirstIndexFrom(s, p, i + 1)
  }

  /** The search passes over exactly the positions that fail `p`. */
  lemma {:induction false} FirstIndexFromSkips<T>(s: seq<T>, p: T -> bool, i: nat)
    requires i <= |s|
    ensures var k := FirstIndexFrom(s, p, i);
            forall j :: i <= j < (if k == -1 then |s| else k) ==> !p(s[j])
    decreases |s| - i
  {
    if i < |s| && !p(s[i]) {
      FirstIndexFromSkips(s, p, i + 1);
    }
  }

  /** Overwriting the first match with another match leaves it the first. */
  lemma FirstIndexAfterUpdate<T>(s: seq<T>, p: T -> bool, x: T)
    requires FirstIndex(s, p) >= 0 && p(x)
    ensures FirstIndex(s[FirstIndex(s, p) := x], p) == FirstIndex(s, p)
  {
    var k := FirstIndex(s, p);
    var t := s[k := x];
    assert t[k] == x;
    forall j | 0 <= j < k ensures !p(t[j]) {
      assert t[j] == s[j];
    }
  }

  /** Appending keeps an existing first match, and otherwise the new element
      is the first match exactly when it matches. */
  lemma FirstIndexAppend<T>(s: seq<T>, p: T -> bool, x: T)
    ensures FirstIndex(s + [x], p) ==
              if FirstIndex(s, p) >= 0 then FirstIndex(s, p)
              else if p(x) then |s| else -1
  {
    var t := s + [x];
    var k := FirstIndex(s, p);
    if k >= 0 {
      assert t[k] == s[k];
      forall j | 0 <= j < k ensures !p(t[j]) {
        assert t[j] == s[j];
      }
    } else {
      assert t[|s|] == x;
      forall j | 0 <= j < |s| ensures !p(t[j]) {
        assert t[j] == s[j];
      }
    }
  }

  /** The loop behind `findIndex`, `find` and `some`. */
  method FindIndex<T>(s: seq<T>, p: T -> bool) returns (k: int)
    ensures k == FirstIndex(s, p)
  {
    k := 0;
    while k < |s| && !p(s[k])
      invariant 0 <= k <= |s|
      invariant forall j :: 0 <= j < k ==> !p(s[j])
    {
      k := k + 1;
    }
    if k == |s| {
      k := -1;
    }
  }
}

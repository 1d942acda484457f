/** String helpers used by several modules: prefix and occurrence tests,
    String.join, and the ASCII part of Java's case conversions. */
module Strings {

  predicate IsPrefix(a: string, b: string) {
    |a| <= |b| && b[..|a|] == a
  }

  /** q occurs in t starting at index i. */
  predicate OccursAt(t: string, q: string, i: int) {
    0 <= i && i + |q| <= |t| && t[i..i + |q|] == q
  }

  /** No occurrence of q anywhere in t (t.contains(q) is false). */
  ghost predicate Absent(t: string, q: string) {
    forall i :: !OccursAt(t, q, i)
  }

  /** String.join(sep, xs). */
  function Join(xs: seq<string>, sep: string): string {
    if |xs| == 0 then ""
    else if |xs| == 1 then xs[0]
    else xs[0] + sep + Join(xs[1..], sep)
  }

  /** Splitting on a separator character, the inverse of Join for parts
      that do not contain the separator. */
  function Split(s: string, sep: char): (parts: seq<string>)
    ensures |parts| >= 1
  {
    SplitFrom(s, sep, "")
  }

  function SplitFrom(s: string, sep: char, acc: string): (parts: seq<string>)
    ensures |parts| >= 1
    decreases |s|
  {
    if |s| == 0 then [acc]
    else if s[0] == sep then [acc] + SplitFrom(s[1..], sep, "")
    else SplitFrom(s[1..], sep, acc + [s[0]])
  }

  predicate Free(s: string, c: char) {
    forall i :: 0 <= i < |s| ==> s[i] != c
  }

  lemma {:induction false} SplitFromNoSep(s: string, sep: char, acc: string)
    requires Free(s, sep)
    ensures SplitFrom(s, sep, acc) == [acc + s]
    decreases |s|
  {
    if |s| > 0 {
      assert s[0] != sep;
      assert Free(s[1..], sep) by {
        forall i | 0 <= i < |s[1..]| ensures s[1..][i] != sep {
          assert s[1..][i] == s[i + 1];
        }
      }
      SplitFromNoSep(s[1..], sep, acc + [s[0]]);
      assert acc + [s[0]] + s[1..] == acc + s;
    } else {
      assert acc + s == acc;
    }
  }

  lemma {:induction false} SplitFromAppend(a: string, b: string, sep: char, acc: string)
    requires Free(a, sep)
    ensures SplitFrom(a + [sep] + b, sep, acc) == [acc + a] + SplitFrom(b, sep, "")
    decreases |a|
  {
    var t := a + [sep] + b;
    if |a| == 0 {
      assert t == [sep] + b;
      assert t[0] == sep && t[1..] == b;
      assert acc + a == acc;
    } else {
      assert t[0] == a[0] && a[0] != sep;
      assert t[1..] == a[1..] + [sep] + b;
      assert Free(a[1..], sep) by {
        forall i | 0 <= i < |a[1..]| ensures a[1..][i] != sep {
          assert a[1..][i] == a[i + 1];
        }
      }
      SplitFromAppend(a[1..], b, sep, acc + [a[0]]);
      assert acc + [a[0]] + a[1..] == acc + a;
    }
  }

  /** Join and Split are inverse when no part contains the separator. */
  lemma {:induction false} SplitJoin(xs: seq<string>, sep: char)
    requires |xs| >= 1
    requires forall i :: 0 <= i < |xs| ==> Free(xs[i], sep)
    ensures Split(Join(xs, [sep]), sep) == xs
  {
    if |xs| == 1 {
      SplitFromNoSep(xs[0], sep, "");
      assert "" + xs[0] == xs[0];
      assert Join(xs, [sep]) == xs[0];
      assert [xs[0]] == xs;
    } else {
      assert forall i :: 0 <= i < |xs[1..]| ==> xs[1..][i] == xs[i + 1];
      SplitJoin(xs[1..], sep);
      SplitFromAppend(xs[0], Join(xs[1..], [sep]), sep, "");
      assert xs[0] + [sep] + Join(xs[1..], [sep]) == Join(xs, [sep]);
      assert "" + xs[0] == xs[0];
      assert Split(Join(xs[1..], [sep]), sep) == SplitFrom(Join(xs[1..], [sep]), sep, "");
      assert [xs[0]] + xs[1..] == xs;
    }
  }

  /** Character.toUpperCase / toLowerCase restricted to ASCII letters. */
  function UpperChar(c: char): char {
    if 'a' <= c <= 'z' then (c as int - 'a' as int + 'A' as int) as char else c
  }

  function LowerChar(c: char): char {
    if 'A' <= c <= 'Z' then (c as int - 'A' as int + 'a' as int) as char else c
  }

  function Upper(s: string): (u: string)
    ensures |u| == |s|
    ensures forall i :: 0 <= i < |s| ==> u[i] == UpperChar(s[i])
  {
    if |s| == 0 then "" else [UpperChar(s[0])] + Upper(s[1..])
  }

  function Lower(s: string): (l: string)
    ensures |l| == |s|
    ensures forall i :: 0 <= i < |s| ==> l[i] == LowerChar(s[i])
  {
    if |s| == 0 then "" else [LowerChar(s[0])] + Lower(s[1..])
  }

  /** String.equalsIgnoreCase on ASCII text. */
  predicate EqualsIgnoreCase(a: string, b: string) {
    Upper(a) == Upper(b)
  }
}

/** The text patches the Python client generator applies to generated code:
    applyPythonWrappers and patchPythonDefaultValues, each a chain of
    String.replace calls. */
module CodeGen {
  import opened Strings

  // ---- String.replace ----

  /** String.replace(p, r): scan left to right and replace each occurrence
      of p that does not overlap an earlier replaced one. */
  function ReplaceAll(s: string, p: string, r: string): (out: string)
    requires |p| > 0
    ensures |p| == |r| ==> |out| == |s|
    ensures p == r ==> out == s
    decreases |s|
  {
    if |s| < |p| then s
    else if s[..|p|] == p then
      assert s[..|p|] + s[|p|..] == s;
      r + ReplaceAll(s[|p|..], p, r)
    else
      assert [s[0]] + s[1..] == s;
      [s[0]] + ReplaceAll(s[1..], p, r)
  }

  lemma ShiftOccurs(s: string, q: string, k: nat, j: int)
    requires k <= |s|
    ensures OccursAt(s[k..], q, j) <==> j >= 0 && OccursAt(s, q, j + k)
  {
  }

  lemma AbsentSuffix(s: string, q: string, k: nat)
    requires k <= |s| && Absent(s, q)
    ensures Absent(s[k..], q)
  {
    forall j ensures !OccursAt(s[k..], q, j) {
      ShiftOccurs(s, q, k, j);
    }
  }

  /** Text without the pattern is returned unchanged. */
  lemma {:induction false} AbsentUnchanged(s: string, p: string, r: string)
    requires |p| > 0 && Absent(s, p)
    ensures ReplaceAll(s, p, r) == s
    decreases |s|
  {
    if |s| >= |p| {
      assert !OccursAt(s, p, 0);
      AbsentSuffix(s, p, 1);
      AbsentUnchanged(s[1..], p, r);
      assert [s[0]] + s[1..] == s;
    }
  }

  /** The first occurrence of q, when there is one. */
  lemma {:induction false} FindFirst(s: string, q: string) returns (i: nat)
    requires !Absent(s, q)
    ensures OccursAt(s, q, i)
    ensures forall j :: 0 <= j < i ==> !OccursAt(s, q, j)
    decreases |s|
  {
    if OccursAt(s, q, 0) {
      return 0;
    }
    var w :| OccursAt(s, q, w);
    assert w >= 1;
    ShiftOccurs(s, q, 1, w - 1);
    var i' := FindFirst(s[1..], q);
    i := i' + 1;
    ShiftOccurs(s, q, 1, i');
    forall j | 0 <= j < i ensures !OccursAt(s, q, j) {
      if j >= 1 {
        ShiftOccurs(s, q, 1, j - 1);
      }
    }
  }

  /** A scan that does not match at 0 copies the first character. */
  lemma CopyFirst(s: string, p: string, r: string)
    requires |p| > 0 && |s| >= |p| && !OccursAt(s, p, 0)
    ensures ReplaceAll(s, p, r) == [s[0]] + ReplaceAll(s[1..], p, r)
  {
  }

  /** A scan that matches at 0 emits r and goes on after the match. */
  lemma MatchFirst(s: string, p: string, r: string)
    requires |p| > 0 && OccursAt(s, p, 0)
    ensures ReplaceAll(s, p, r) == r + ReplaceAll(s[|p|..], p, r)
  {
    assert s[..|p|] == p;
  }

  /** Positions before i that hold no occurrence in s hold none in s[1..]. */
  lemma NoneBeforeInTail(s: string, p: string, i: nat)
    requires 0 < i <= |s|
    requires forall j :: 0 <= j < i ==> !OccursAt(s, p, j)
    ensures forall j :: 0 <= j < i - 1 ==> !OccursAt(s[1..], p, j)
  {
    forall j | 0 <= j < i - 1 ensures !OccursAt(s[1..], p, j) {
      ShiftOccurs(s, p, 1, j);
    }
  }

  /** Text before the first i positions, none of which starts an
      occurrence, is copied. */
  lemma {:induction false} CopyUpTo(s: string, p: string, r: string, i: nat)
    requires |p| > 0 && i + |p| <= |s|
    requires forall j :: 0 <= j < i ==> !OccursAt(s, p, j)
    ensures ReplaceAll(s, p, r) == s[..i] + ReplaceAll(s[i..], p, r)
    decreases i
  {
    if i > 0 {
      CopyFirst(s, p, r);
      NoneBeforeInTail(s, p, i);
      CopyUpTo(s[1..], p, r, i - 1);
      ConsSlices(s, i, ReplaceAll(s[i..], p, r));
    }
  }

  lemma ConsSlices(s: string, i: nat, x: string)
    requires 0 < i <= |s|
    ensures s[1..][i - 1..] == s[i..]
    ensures [s[0]] + (s[1..][..i - 1] + x) == s[..i] + x
  {
    assert [s[0]] + s[1..][..i - 1] == s[..i];
  }

  /** Up to the first occurrence, text is copied; the occurrence becomes r. */
  lemma UpToFirst(s: string, p: string, r: string, i: nat)
    requires |p| > 0 && OccursAt(s, p, i)
    requires forall j :: 0 <= j < i ==> !OccursAt(s, p, j)
    ensures ReplaceAll(s, p, r) == s[..i] + r + ReplaceAll(s[i + |p|..], p, r)
  {
    CopyUpTo(s, p, r, i);
    ShiftOccurs(s, p, i, 0);
    MatchFirst(s[i..], p, r);
    Regroup(s, i, |p|, r, ReplaceAll(s[i + |p|..], p, r));
  }

  lemma Regroup(s: string, i: nat, n: nat, r: string, x: string)
    requires i + n <= |s|
    ensures s[i..][n..] == s[i + n..]
    ensures s[..i] + (r + x) == s[..i] + r + x
  {
  }

  /** An occurrence followed by text shorter than the pattern is the last
      one replaced. */
  lemma ReplaceLast(s: string, p: string, r: string, i: nat)
    requires |p| > 0 && OccursAt(s, p, i) && |s| < i + 2 * |p|
    requires forall j :: 0 <= j < i ==> !OccursAt(s, p, j)
    ensures ReplaceAll(s, p, r) == s[..i] + r + s[i + |p|..]
  {
    UpToFirst(s, p, r, i);
  }

  // ---- When a replacement cannot leave or create an occurrence ----

  /** One of a and b is a prefix of the other. */
  predicate Compatible(a: string, b: string) {
    var n := if |a| < |b| then |a| else |b|;
    a[..n] == b[..n]
  }

  /** Inserting r next to any text cannot complete an occurrence of q:
      q does not occur in r, no proper prefix of q ends r, and no proper
      suffix of q starts where r does. */
  ghost predicate Clean(q: string, r: string) {
    Absent(r, q) && NoPrefixEnds(q, r) && NoSuffixStarts(q, r)
  }

  /** No proper prefix of q ends r. */
  ghost predicate NoPrefixEnds(q: string, r: string) {
    forall k :: 0 < k < |q| && k <= |r| ==> r[|r| - k..] != q[..k]
  }

  /** No proper suffix of q is compatible with r. */
  ghost predicate NoSuffixStarts(q: string, r: string) {
    forall m :: 0 < m < |q| ==> !Compatible(q[m..], r)
  }

  /** After s.replace(p, r), q does not occur when r is clean for q and q
      is p itself or did not occur before. */
  lemma {:induction false} NoOccurrence(s: string, p: string, r: string, q: string)
    requires |p| > 0 && |q| > 0 && Clean(q, r)
    requires q == p || Absent(s, q)
    ensures Absent(ReplaceAll(s, p, r), q)
    decreases |s|
  {
    var t := ReplaceAll(s, p, r);
    if |s| < |p| {
      forall j ensures !OccursAt(t, q, j) {
        if q != p { assert !OccursAt(s, q, j); }
      }
    } else if s[..|p|] == p {
      var s2 := s[|p|..];
      if q != p { AbsentSuffix(s, q, |p|); }
      NoOccurrence(s2, p, r, q);
      InsertedClean(r, ReplaceAll(s2, p, r), q);
    } else {
      var s1 := s[1..];
      if q != p { AbsentSuffix(s, q, 1); }
      NoOccurrence(s1, p, r, q);
      StartsInside(s, p, r, q);
      CopiedAbsent(s[0], ReplaceAll(s1, p, r), q);
    }
  }

  /** r followed by text without q holds no q when r is clean for q. */
  lemma InsertedClean(r: string, t2: string, q: string)
    requires |q| > 0 && Clean(q, r) && Absent(t2, q)
    ensures Absent(r + t2, q)
  {
    forall j | 0 <= j && j + |q| <= |r + t2| ensures !OccursAt(r + t2, q, j) {
      if j + |q| <= |r| {
        assert !OccursAt(r, q, j);
        InsideLeft(r, t2, q, j);
      } else if j < |r| {
        var k := |r| - j;
        assert r[|r| - k..] != q[..k];
        AcrossJoin(r, t2, q, j);
      } else {
        assert !OccursAt(t2, q, j - |r|);
        InsideRight(r, t2, q, j);
      }
    }
  }

  lemma InsideLeft(a: string, b: string, q: string, j: nat)
    requires j + |q| <= |a| && !OccursAt(a, q, j)
    ensures !OccursAt(a + b, q, j)
  {
    assert (a + b)[j..j + |q|] == a[j..j + |q|];
  }

  lemma AcrossJoin(a: string, b: string, q: string, j: nat)
    requires j < |a| < j + |q| && a[j..] != q[..|a| - j]
    ensures !OccursAt(a + b, q, j)
  {
    if j + |q| <= |a + b| {
      assert (a + b)[j..j + |q|][..|a| - j] == a[j..];
    }
  }

  lemma InsideRight(a: string, b: string, q: string, j: nat)
    requires |a| <= j && !OccursAt(b, q, j - |a|)
    ensures !OccursAt(a + b, q, j)
  {
    if j + |q| <= |a + b| {
      assert (a + b)[j..j + |q|] == b[j - |a|..j - |a| + |q|];
    }
  }

  /** A character before text without q adds no q unless q starts there. */
  lemma CopiedAbsent(c: char, t1: string, q: string)
    requires Absent(t1, q) && !OccursAt([c] + t1, q, 0)
    ensures Absent([c] + t1, q)
  {
    var t := [c] + t1;
    forall j | 1 <= j && j + |q| <= |t| ensures !OccursAt(t, q, j) {
      assert t[j..j + |q|] == t1[j - 1..j - 1 + |q|];
      assert !OccursAt(t1, q, j - 1);
    }
  }

  /** The case of NoOccurrence where q would start at the first character
      of the output, which the scan copied. */
  lemma {:induction false} StartsInside(s: string, p: string, r: string, q: string)
    requires |p| > 0 && |q| > 0 && Clean(q, r)
    requires |s| >= |p| && s[..|p|] != p
    requires q == p || Absent(s, q)
    ensures !OccursAt([s[0]] + ReplaceAll(s[1..], p, r), q, 0)
  {
    var s1 := s[1..];
    assert !OccursAt(s, q, 0);
    if Absent(s1, p) {
      AbsentUnchanged(s1, p, r);
      assert [s[0]] + s1 == s;
    } else {
      var i := FindFirst(s1, p);
      UpToFirst(s1, p, r, i);
      var b := ReplaceAll(s1[i + |p|..], p, r);
      if i >= |q| - 1 {
        CopiedPrefix(s, q, s1[..i], r, b);
      } else {
        InsertedAt(s[0], q, r, s1[..i], b);
      }
    }
  }

  /** q cannot start at 0 when the first |q| characters are copied from a
      text where it does not start at 0. */
  lemma CopiedPrefix(s: string, q: string, a: string, r: string, b: string)
    requires |s| >= 1 && |q| > 0 && !OccursAt(s, q, 0)
    requires |a| <= |s| - 1 && a == s[1..][..|a|] && |a| >= |q| - 1
    ensures !OccursAt([s[0]] + (a + r + b), q, 0)
  {
    var t := [s[0]] + (a + r + b);
    if |q| <= |t| {
      assert t[..|q|] == s[..|q|];
    }
  }

  /** q cannot start at 0 when an r is inserted at an offset m inside it
      and no suffix of q from m is compatible with r. */
  lemma InsertedAt(c: char, q: string, r: string, a: string, b: string)
    requires |q| > 0 && |a| + 1 < |q| && !Compatible(q[|a| + 1..], r)
    ensures !OccursAt([c] + (a + r + b), q, 0)
  {
    var t := [c] + (a + r + b);
    var m := |a| + 1;
    var n := if |q| - m < |r| then |q| - m else |r|;
    if |q| <= |t| {
      assert q[m..][..n] != r[..n];
      assert t[m..m + n] == r[..n];
      assert q[m..][..n] == q[m..m + n];
    }
  }

  // ---- Checking the conditions on literals, two characters at a time ----

  /** No two adjacent characters of r are c0 then c1, except at the
      positions rx lists. */
  ghost predicate NoPairAt(r: string, c0: char, c1: char, rx: map<nat, nat>) {
    forall i, j :: 0 <= i && j == i + 1 && j < |r| && i !in rx ==> r[i] != c0 || r[j] != c1
  }

  /** At each listed position i, s differs from q at offset x[i]. */
  ghost predicate ExceptionsDiffer(s: string, q: string, x: map<nat, nat>) {
    forall i {:trigger x[i]} :: i in x ==> x[i] < |q| && i + x[i] < |s| && s[i + x[i]] != q[x[i]]
  }

  /** As NoPairAt, for the positions past the first. */
  ghost predicate NoPairInside(q: string, c0: char, c1: char, qx: map<nat, nat>) {
    forall m, n :: 0 < m && n == m + 1 && n < |q| && m !in qx ==> q[m] != c0 || q[n] != c1
  }

  /** The pair c0 c1 is missing from a + b when it is missing from a (outside
      rx), from b, and across the join. */
  lemma NoPairJoined(a: string, b: string, c0: char, c1: char, rx: map<nat, nat>)
    requires |a| >= 1 && |b| >= 1
    requires NoPairAt(a, c0, c1, rx) && NoPairAt(b, c0, c1, map[])
    requires a[|a| - 1] != c0 || b[0] != c1
    ensures NoPairAt(a + b, c0, c1, rx)
  {
    var t := a + b;
    forall i | 0 <= i < |t| - 1 && i !in rx ensures t[i] != c0 || t[i + 1] != c1 {
      if i < |a| - 1 {
        assert a[i] != c0 || a[i + 1] != c1;
        assert t[i] == a[i] && t[i + 1] == a[i + 1];
      } else if i == |a| - 1 {
        assert t[i] == a[i] && t[i + 1] == b[0];
      } else {
        assert b[i - |a|] != c0 || b[i - |a| + 1] != c1;
        assert t[i] == b[i - |a|] && t[i + 1] == b[i - |a| + 1];
      }
    }
  }

  /** Clean(q, r) from windows: the first two characters of q start no
      window of r except at the positions of rx, where r and q differ at
      the offset rx gives; r does not end with q's first character; and
      symmetrically, r's first two characters start no window of q past 0
      except at the positions of qx. */
  lemma CleanByWindows(q: string, r: string, rx: map<nat, nat>, qx: map<nat, nat>)
    requires |q| >= 2 && |r| >= 2
    requires NoPairAt(r, q[0], q[1], rx)
    requires ExceptionsDiffer(r, q, rx)
    requires r[|r| - 1] != q[0]
    requires NoPairInside(q, r[0], r[1], qx)
    requires ExceptionsDiffer(q, r, qx)
    requires q[|q| - 1] != r[0]
    ensures Clean(q, r)
  {
    AbsentByWindows(r, q, rx);
    EndByWindows(q, r, rx);
    StartByWindows(q, r, qx);
  }

  /** No proper prefix of q ends r, from the windows of r. */
  lemma EndByWindows(q: string, r: string, rx: map<nat, nat>)
    requires |q| >= 2 && |r| >= 2
    requires NoPairAt(r, q[0], q[1], rx)
    requires ExceptionsDiffer(r, q, rx)
    requires r[|r| - 1] != q[0]
    ensures NoPrefixEnds(q, r)
  {
    forall k | 0 < k < |q| && k <= |r| ensures r[|r| - k..] != q[..k] {
      EndAt(q, r, rx, k);
    }
  }

  lemma EndAt(q: string, r: string, rx: map<nat, nat>, k: nat)
    requires |q| >= 2 && |r| >= 2 && 0 < k < |q| && k <= |r|
    requires NoPairAt(r, q[0], q[1], rx)
    requires ExceptionsDiffer(r, q, rx)
    requires r[|r| - 1] != q[0]
    ensures r[|r| - k..] != q[..k]
  {
    var i := |r| - k;
    if k == 1 || (i !in rx && r[i] != q[0]) {
      TailDiffers(r, q, i, 0);
    } else if i in rx {
      TailDiffers(r, q, i, rx[i]);
    } else {
      assert r[i + 1] != q[1];
      TailDiffers(r, q, i, 1);
    }
  }

  lemma TailDiffers(r: string, q: string, i: nat, w: nat)
    requires i + w < |r| && |r| - i <= |q| && r[i + w] != q[w]
    ensures r[i..] != q[..|r| - i]
  {
    assert r[i..][w] != q[..|r| - i][w];
  }

  /** No proper suffix of q is compatible with r, from the windows of q. */
  lemma StartByWindows(q: string, r: string, qx: map<nat, nat>)
    requires |q| >= 2 && |r| >= 2
    requires NoPairInside(q, r[0], r[1], qx)
    requires ExceptionsDiffer(q, r, qx)
    requires q[|q| - 1] != r[0]
    ensures NoSuffixStarts(q, r)
  {
    forall m | 0 < m < |q| ensures !Compatible(q[m..], r) {
      StartAt(q, r, qx, m);
    }
  }

  lemma StartAt(q: string, r: string, qx: map<nat, nat>, m: nat)
    requires |q| >= 2 && |r| >= 2 && 0 < m < |q|
    requires NoPairInside(q, r[0], r[1], qx)
    requires ExceptionsDiffer(q, r, qx)
    requires q[|q| - 1] != r[0]
    ensures !Compatible(q[m..], r)
  {
    if m in qx {
      SuffixDiffers(q, r, m, qx[m]);
    } else if m == |q| - 1 || q[m] != r[0] {
      SuffixDiffers(q, r, m, 0);
    } else {
      assert q[m + 1] != r[1];
      SuffixDiffers(q, r, m, 1);
    }
  }

  lemma SuffixDiffers(q: string, r: string, m: nat, w: nat)
    requires 0 < m < |q| && m + w < |q| && w < |r| && q[m + w] != r[w]
    ensures !Compatible(q[m..], r)
  {
    var n := if |q| - m < |r| then |q| - m else |r|;
    assert q[m..][..n][w] != r[..n][w];
  }

  /** Absent(s, q) from windows: q's first two characters start no window
      of s except at the positions of sx, where s and q differ at the offset
      sx gives. */
  lemma AbsentByWindows(s: string, q: string, sx: map<nat, nat>)
    requires |q| >= 2
    requires NoPairAt(s, q[0], q[1], sx)
    requires ExceptionsDiffer(s, q, sx)
    ensures Absent(s, q)
  {
    forall i | 0 <= i && i + |q| <= |s| ensures !OccursAt(s, q, i) {
      AbsentAt(s, q, sx, i);
    }
  }

  lemma AbsentAt(s: string, q: string, sx: map<nat, nat>, i: nat)
    requires |q| >= 2 && i + |q| <= |s|
    requires NoPairAt(s, q[0], q[1], sx)
    requires ExceptionsDiffer(s, q, sx)
    ensures !OccursAt(s, q, i)
  {
    if i !in sx {
      PairFrom(s, q[0], q[1], sx, i);
      var w := if s[i] != q[0] then 0 else 1;
      WindowDiffers(s, q, i, w);
    } else {
      WindowDiffers(s, q, i, sx[i]);
    }
  }

  lemma WindowDiffers(s: string, q: string, i: nat, w: nat)
    requires i + |q| <= |s| && w < |q| && s[i + w] != q[w]
    ensures !OccursAt(s, q, i)
  {
    assert s[i..i + |q|][w] != q[w];
  }


  lemma PairFrom(r: string, c0: char, c1: char, rx: map<nat, nat>, i: nat)
    requires NoPairAt(r, c0, c1, rx) && i + 1 < |r| && i !in rx
    ensures r[i] != c0 || r[i + 1] != c1
  {
  }
  // ---- patchPythonDefaultValues ----

  const InputFormatNone := "input_data_format=None"
  const InputFormatNumpy := "input_data_format='NUMPY'"
  const OutputFormatNone := "output_data_format=None"
  const OutputFormatNumpy := "output_data_format='NUMPY'"
  const PredictionNone := "prediction_type=None"
  const PredictionRaw := "prediction_type='RAW'"
  const SetupAndRunNone := "setup_and_run=None"
  const SetupAndRunFalse := "setup_and_run=False"
  const SetupAndRunTail := "tup_and_run=None"
  const UploadsNone := "uploads_directory=None"
  const UploadsDefault := "uploads_directory='file-uploads/'"

  /** patchPythonDefaultValues: five replacements of a "name=None"
      default by a fixed literal, in this order.  No patched default
      survives, for four of the five patterns: each of those replacements
      removes its pattern and no later one brings back an earlier pattern.
      "setup_and_run=None" can survive: see SetupAndRunDefaultCanSurvive. */
  function PatchPythonDefaultValues(m: string): (out: string)
    ensures Absent(out, InputFormatNone) && Absent(out, OutputFormatNone) && Absent(out, PredictionNone)
      && Absent(out, UploadsNone)
  {
    var m1 := ReplaceAll(m, InputFormatNone, InputFormatNumpy);
    var m2 := ReplaceAll(m1, OutputFormatNone, OutputFormatNumpy);
    var m3 := ReplaceAll(m2, PredictionNone, PredictionRaw);
    var m4 := ReplaceAll(m3, SetupAndRunNone, SetupAndRunFalse);
    PatchTablesClean();
    NoOccurrence(m, InputFormatNone, InputFormatNumpy, InputFormatNone);
    NoOccurrence(m1, OutputFormatNone, OutputFormatNumpy, InputFormatNone);
    NoOccurrence(m1, OutputFormatNone, OutputFormatNumpy, OutputFormatNone);
    NoOccurrence(m2, PredictionNone, PredictionRaw, InputFormatNone);
    NoOccurrence(m2, PredictionNone, PredictionRaw, OutputFormatNone);
    NoOccurrence(m2, PredictionNone, PredictionRaw, PredictionNone);
    NoOccurrence(m3, SetupAndRunNone, SetupAndRunFalse, InputFormatNone);
    NoOccurrence(m3, SetupAndRunNone, SetupAndRunFalse, OutputFormatNone);
    NoOccurrence(m3, SetupAndRunNone, SetupAndRunFalse, PredictionNone);
    NoOccurrence(m4, UploadsNone, UploadsDefault, InputFormatNone);
    NoOccurrence(m4, UploadsNone, UploadsDefault, OutputFormatNone);
    NoOccurrence(m4, UploadsNone, UploadsDefault, PredictionNone);
    NoOccurrence(m4, UploadsNone, UploadsDefault, UploadsNone);
    ReplaceAll(m4, UploadsNone, UploadsDefault)
  }

  const SurvivingInput := "setup_and_run=Nonetup_and_run=None"
  const SurvivingOutput := "setup_and_run=Falsetup_and_run=None"

  /** "setup_and_run=False" ends in "se"; followed by "tup_and_run=None" it
      spells the pattern again, so one pass over an input holding the
      pattern once leaves a "setup_and_run=None" behind. */
  lemma SetupAndRunDefaultCanSurvive()
    ensures Absent(SurvivingInput[1..], SetupAndRunNone)
    ensures PatchPythonDefaultValues(SurvivingInput) == SurvivingOutput
    ensures OccursAt(SurvivingOutput, SetupAndRunNone, |SetupAndRunFalse| - 2)
  {
    SurvivingFirstThree();
    SurvivingSetupAndRun();
    SurvivingUploads();
    PatchSteps(SurvivingInput, SurvivingOutput);
    SurvivingOccurrence();
    SurvivingOnce();
  }

  lemma SurvivingOnce()
    ensures Absent(SurvivingInput[1..], SetupAndRunNone)
  {
    AbsentByWindows(SurvivingInput[1..], SetupAndRunNone, map[]);
  }

  lemma SurvivingOccurrence()
    ensures OccursAt(SurvivingOutput, SetupAndRunNone, |SetupAndRunFalse| - 2)
  {
    assert SurvivingOutput[17..35] == SetupAndRunNone;
  }

  /** The patch of a text that the first three and the last replacement
      leave alone is its setup_and_run replacement. */
  lemma PatchSteps(m: string, m4: string)
    requires ReplaceAll(m, InputFormatNone, InputFormatNumpy) == m
    requires ReplaceAll(m, OutputFormatNone, OutputFormatNumpy) == m
    requires ReplaceAll(m, PredictionNone, PredictionRaw) == m
    requires ReplaceAll(m, SetupAndRunNone, SetupAndRunFalse) == m4
    requires ReplaceAll(m4, UploadsNone, UploadsDefault) == m4
    ensures PatchPythonDefaultValues(m) == m4
  {
  }

  lemma SurvivingFirstThree()
    ensures ReplaceAll(SurvivingInput, InputFormatNone, InputFormatNumpy) == SurvivingInput
    ensures ReplaceAll(SurvivingInput, OutputFormatNone, OutputFormatNumpy) == SurvivingInput
    ensures ReplaceAll(SurvivingInput, PredictionNone, PredictionRaw) == SurvivingInput
  {
    SurvivingLacksInputFormat();
    SurvivingLacksOutputFormat();
    SurvivingLacksPrediction();
  }

  lemma SurvivingLacksInputFormat()
    ensures ReplaceAll(SurvivingInput, InputFormatNone, InputFormatNumpy) == SurvivingInput
  {
    AbsentByWindows(SurvivingInput, InputFormatNone, map[]);
    AbsentUnchanged(SurvivingInput, InputFormatNone, InputFormatNumpy);
  }

  lemma SurvivingLacksOutputFormat()
    ensures ReplaceAll(SurvivingInput, OutputFormatNone, OutputFormatNumpy) == SurvivingInput
  {
    AbsentByWindows(SurvivingInput, OutputFormatNone, map[]);
    AbsentUnchanged(SurvivingInput, OutputFormatNone, OutputFormatNumpy);
  }

  lemma SurvivingLacksPrediction()
    ensures ReplaceAll(SurvivingInput, PredictionNone, PredictionRaw) == SurvivingInput
  {
    AbsentByWindows(SurvivingInput, PredictionNone, map[]);
    AbsentUnchanged(SurvivingInput, PredictionNone, PredictionRaw);
  }

  lemma SurvivingSetupAndRun()
    ensures ReplaceAll(SurvivingInput, SetupAndRunNone, SetupAndRunFalse) == SurvivingOutput
  {
    assert SurvivingInput[..18] == SetupAndRunNone;
    assert SurvivingInput[18..] == SetupAndRunTail;
    assert ReplaceAll(SetupAndRunTail, SetupAndRunNone, SetupAndRunFalse) == SetupAndRunTail;
    assert SetupAndRunFalse + SetupAndRunTail == SurvivingOutput;
  }

  lemma SurvivingUploads()
    ensures ReplaceAll(SurvivingOutput, UploadsNone, UploadsDefault) == SurvivingOutput
  {
    AbsentByWindows(SurvivingOutput, UploadsNone, map[3 := 2, 20 := 2]);
    AbsentUnchanged(SurvivingOutput, UploadsNone, UploadsDefault);
  }

  /** Text with none of the five patterns passes through unchanged. */
  lemma PatchUnchanged(m: string)
    requires Absent(m, InputFormatNone) && Absent(m, OutputFormatNone) && Absent(m, PredictionNone)
    requires Absent(m, SetupAndRunNone) && Absent(m, UploadsNone)
    ensures PatchPythonDefaultValues(m) == m
  {
    AbsentUnchanged(m, InputFormatNone, InputFormatNumpy);
    AbsentUnchanged(m, OutputFormatNone, OutputFormatNumpy);
    AbsentUnchanged(m, PredictionNone, PredictionRaw);
    AbsentUnchanged(m, SetupAndRunNone, SetupAndRunFalse);
    AbsentUnchanged(m, UploadsNone, UploadsDefault);
  }

  /** Patching twice is patching once, whenever the first pass leaves no
      "setup_and_run=None" behind. */
  lemma PatchIdempotent(m: string)
    requires Absent(PatchPythonDefaultValues(m), SetupAndRunNone)
    ensures PatchPythonDefaultValues(PatchPythonDefaultValues(m)) == PatchPythonDefaultValues(m)
  {
    PatchUnchanged(PatchPythonDefaultValues(m));
  }

  /** Each replacement literal is clean for its own pattern and for every
      pattern replaced before it, except "setup_and_run=False" for its own
      pattern: it ends in "se", which starts "setup_and_run=None". */
  lemma PatchTablesClean()
    ensures Clean(InputFormatNone, InputFormatNumpy)
    ensures Clean(InputFormatNone, OutputFormatNumpy) && Clean(OutputFormatNone, OutputFormatNumpy)
    ensures Clean(InputFormatNone, PredictionRaw) && Clean(OutputFormatNone, PredictionRaw)
      && Clean(PredictionNone, PredictionRaw)
    ensures Clean(InputFormatNone, SetupAndRunFalse) && Clean(OutputFormatNone, SetupAndRunFalse)
      && Clean(PredictionNone, SetupAndRunFalse)
    ensures Clean(InputFormatNone, UploadsDefault) && Clean(OutputFormatNone, UploadsDefault)
      && Clean(PredictionNone, UploadsDefault) && Clean(SetupAndRunNone, UploadsDefault)
      && Clean(UploadsNone, UploadsDefault)
  {
    InputFormatNumpyClean();
    OutputFormatNumpyClean();
    PredictionRawClean();
    SetupAndRunFalseClean();
    UploadsDefaultClean();
  }

  lemma InputFormatNumpyClean()
    ensures Clean(InputFormatNone, InputFormatNumpy)
  {
    CleanByWindows(InputFormatNone, InputFormatNumpy, map[0 := 18], map[]);
  }

  lemma OutputFormatNumpyClean()
    ensures Clean(InputFormatNone, OutputFormatNumpy) && Clean(OutputFormatNone, OutputFormatNumpy)
  {
    InputFormatCleanOutput();
    CleanByWindows(OutputFormatNone, OutputFormatNumpy, map[0 := 19], map[]);
  }

  lemma InputFormatCleanOutput()
    ensures Clean(InputFormatNone, OutputFormatNumpy)
  {
    CleanByWindows(InputFormatNone, OutputFormatNumpy, map[], map[]);
  }

  lemma PredictionRawClean()
    ensures Clean(InputFormatNone, PredictionRaw) && Clean(OutputFormatNone, PredictionRaw)
      && Clean(PredictionNone, PredictionRaw)
  {
    FormatsCleanPrediction();
    CleanByWindows(PredictionNone, PredictionRaw, map[0 := 16], map[]);
  }

  lemma FormatsCleanPrediction()
    ensures Clean(InputFormatNone, PredictionRaw) && Clean(OutputFormatNone, PredictionRaw)
  {
    CleanByWindows(InputFormatNone, PredictionRaw, map[], map[]);
    CleanByWindows(OutputFormatNone, PredictionRaw, map[], map[]);
  }

  lemma SetupAndRunFalseClean()
    ensures Clean(InputFormatNone, SetupAndRunFalse) && Clean(OutputFormatNone, SetupAndRunFalse)
      && Clean(PredictionNone, SetupAndRunFalse)
  {
    FormatsCleanSetupAndRun();
    CleanByWindows(PredictionNone, SetupAndRunFalse, map[], map[]);
  }

  lemma FormatsCleanSetupAndRun()
    ensures Clean(InputFormatNone, SetupAndRunFalse) && Clean(OutputFormatNone, SetupAndRunFalse)
  {
    CleanByWindows(InputFormatNone, SetupAndRunFalse, map[], map[]);
    CleanByWindows(OutputFormatNone, SetupAndRunFalse, map[], map[]);
  }

  lemma UploadsDefaultClean()
    ensures Clean(InputFormatNone, UploadsDefault) && Clean(OutputFormatNone, UploadsDefault)
      && Clean(PredictionNone, UploadsDefault) && Clean(SetupAndRunNone, UploadsDefault)
      && Clean(UploadsNone, UploadsDefault)
  {
    UploadsDefaultCleanFormats();
    CleanByWindows(PredictionNone, UploadsDefault, map[], map[]);
    UploadsDefaultCleanLate();
  }

  lemma UploadsDefaultCleanFormats()
    ensures Clean(InputFormatNone, UploadsDefault) && Clean(OutputFormatNone, UploadsDefault)
  {
    InputFormatCleanUploads();
    OutputFormatCleanUploads();
  }

  lemma InputFormatCleanUploads()
    ensures Clean(InputFormatNone, UploadsDefault)
  {
    CleanByWindows(InputFormatNone, UploadsDefault, map[], map[]);
  }

  lemma OutputFormatCleanUploads()
    ensures Clean(OutputFormatNone, UploadsDefault)
  {
    CleanByWindows(OutputFormatNone, UploadsDefault, map[], map[]);
  }

  lemma UploadsDefaultCleanLate()
    ensures Clean(SetupAndRunNone, UploadsDefault) && Clean(UploadsNone, UploadsDefault)
  {
    SetupAndRunCleanUploads();
    UploadsCleanUploads();
  }

  lemma SetupAndRunCleanUploads()
    ensures Clean(SetupAndRunNone, UploadsDefault)
  {
    CleanByWindows(SetupAndRunNone, UploadsDefault, map[], map[3 := 2]);
  }

  lemma UploadsCleanUploads()
    ensures Clean(UploadsNone, UploadsDefault)
  {
    CleanByWindows(UploadsNone, UploadsDefault, map[0 := 18, 24 := 7], map[]);
  }

  // ---- applyPythonWrappers ----

  const ImportEnum := "import enum"
  const Shebang := "#!/usr/bin/env/python"
  const InitNoArgs := "def __init__(self\n            ):"
  const InitPass := "def __init__(self):\n\t\tpass"
  const TypeCheck := "if not isinstance(value, type)"
  const DictCheck := "if not isinstance(value, dict)"
  const ListCheck := "if not isinstance(value, list)"
  const DictWrapperCheck := " and not isinstance(value, DictWrapper)"
  const ListWrapperCheck := " and not isinstance(value, ListWrapper)"
  const DictWrapped := DictCheck + DictWrapperCheck
  const ListWrapped := ListCheck + ListWrapperCheck
  const TypeEntry := "'type': type"
  const DictEntry := "'type': dict"

  /** applyPythonWrappers: eight replacements, in this order, that drop the
      enum import and the shebang, give the empty constructor a body, and
      let dictionary and list checks accept the wrapper classes.  No generic
      type check, no generic 'type' entry and no argument-less constructor
      survives them. */
  function ApplyPythonWrappers(m: string): (out: string)
    ensures Absent(out, TypeCheck) && Absent(out, TypeEntry) && Absent(out, InitNoArgs)
  {
    var w1 := ReplaceAll(m, ImportEnum, "");
    var w2 := ReplaceAll(w1, Shebang, "");
    var w3 := ReplaceAll(w2, InitNoArgs, InitPass);
    var w4 := ReplaceAll(w3, TypeCheck, DictWrapped);
    var w5 := ReplaceAll(w4, TypeCheck, ListWrapped);
    var w6 := ReplaceAll(w5, DictCheck, DictWrapped);
    var w7 := ReplaceAll(w6, ListCheck, ListWrapped);
    WrapperTablesClean();
    NoOccurrence(w2, InitNoArgs, InitPass, InitNoArgs);
    NoOccurrence(w3, TypeCheck, DictWrapped, InitNoArgs);
    NoOccurrence(w3, TypeCheck, DictWrapped, TypeCheck);
    NoOccurrence(w4, TypeCheck, ListWrapped, InitNoArgs);
    NoOccurrence(w4, TypeCheck, ListWrapped, TypeCheck);
    NoOccurrence(w5, DictCheck, DictWrapped, InitNoArgs);
    NoOccurrence(w5, DictCheck, DictWrapped, TypeCheck);
    NoOccurrence(w6, ListCheck, ListWrapped, InitNoArgs);
    NoOccurrence(w6, ListCheck, ListWrapped, TypeCheck);
    NoOccurrence(w7, TypeEntry, DictEntry, InitNoArgs);
    NoOccurrence(w7, TypeEntry, DictEntry, TypeCheck);
    NoOccurrence(w7, TypeEntry, DictEntry, TypeEntry);
    ReplaceAll(w7, TypeEntry, DictEntry)
  }

  /** The replacement literals that follow each removed pattern are clean
      for it. */
  lemma WrapperTablesClean()
    ensures Clean(InitNoArgs, InitPass) && Clean(InitNoArgs, DictWrapped)
      && Clean(InitNoArgs, ListWrapped) && Clean(InitNoArgs, DictEntry)
    ensures Clean(TypeCheck, DictWrapped) && Clean(TypeCheck, ListWrapped)
      && Clean(TypeCheck, DictEntry) && Clean(TypeEntry, DictEntry)
  {
    InitNoArgsCleanInitPass();
    InitNoArgsCleanDictWrapped();
    InitNoArgsCleanListWrapped();
    InitNoArgsCleanDictEntry();
    TypeCheckCleanDictWrapped();
    TypeCheckCleanListWrapped();
    TypeCheckCleanDictEntry();
    CleanByWindows(TypeEntry, DictEntry, map[0 := 8], map[]);
  }

  lemma InitNoArgsCleanInitPass()
    ensures Clean(InitNoArgs, InitPass)
  {
    CleanByWindows(InitNoArgs, InitPass, map[0 := 17], map[]);
  }

  lemma InitNoArgsCleanDictWrapped()
    ensures Clean(InitNoArgs, DictWrapped)
  {
    DictWrapperLacksInit();
    NoPairJoined(DictCheck, DictWrapperCheck, InitNoArgs[0], InitNoArgs[1], map[]);
    InitNoArgsLacksDictWrapped();
    CleanByWindows(InitNoArgs, DictWrapped, map[], map[]);
  }

  lemma InitNoArgsCleanListWrapped()
    ensures Clean(InitNoArgs, ListWrapped)
  {
    ListWrapperLacksInit();
    NoPairJoined(ListCheck, ListWrapperCheck, InitNoArgs[0], InitNoArgs[1], map[]);
    InitNoArgsLacksListWrapped();
    CleanByWindows(InitNoArgs, ListWrapped, map[], map[]);
  }

  lemma InitNoArgsCleanDictEntry()
    ensures Clean(InitNoArgs, DictEntry)
  {
    CleanByWindows(InitNoArgs, DictEntry, map[], map[]);
  }

  lemma TypeCheckCleanDictWrapped()
    ensures Clean(TypeCheck, DictWrapped)
  {
    DictWrapperLacksTypeCheck();
    NoPairJoined(DictCheck, DictWrapperCheck, TypeCheck[0], TypeCheck[1], map[0 := 25]);
    TypeCheckLacksDictWrapped();
    CleanByWindows(TypeCheck, DictWrapped, map[0 := 25], map[]);
  }

  lemma TypeCheckCleanListWrapped()
    ensures Clean(TypeCheck, ListWrapped)
  {
    ListWrapperLacksTypeCheck();
    NoPairJoined(ListCheck, ListWrapperCheck, TypeCheck[0], TypeCheck[1], map[0 := 25]);
    TypeCheckLacksListWrapped();
    CleanByWindows(TypeCheck, ListWrapped, map[0 := 25], map[]);
  }

  lemma TypeCheckCleanDictEntry()
    ensures Clean(TypeCheck, DictEntry)
  {
    CleanByWindows(TypeCheck, DictEntry, map[], map[]);
  }

  // The pairs of characters the long literals above do not hold, each
  // checked on its own.

  lemma DictWrapperLacksInit()
    ensures NoPairAt(DictWrapperCheck, InitNoArgs[0], InitNoArgs[1], map[])
  {
  }

  lemma DictWrapperLacksTypeCheck()
    ensures NoPairAt(DictWrapperCheck, TypeCheck[0], TypeCheck[1], map[])
  {
  }

  lemma InitNoArgsLacksDictWrapped()
    ensures NoPairInside(InitNoArgs, DictWrapped[0], DictWrapped[1], map[])
  {
  }

  lemma TypeCheckLacksDictWrapped()
    ensures NoPairInside(TypeCheck, DictWrapped[0], DictWrapped[1], map[])
  {
  }

  lemma ListWrapperLacksInit()
    ensures NoPairAt(ListWrapperCheck, InitNoArgs[0], InitNoArgs[1], map[])
  {
  }

  lemma ListWrapperLacksTypeCheck()
    ensures NoPairAt(ListWrapperCheck, TypeCheck[0], TypeCheck[1], map[])
  {
  }

  lemma InitNoArgsLacksListWrapped()
    ensures NoPairInside(InitNoArgs, ListWrapped[0], ListWrapped[1], map[])
  {
  }

  lemma TypeCheckLacksListWrapped()
    ensures NoPairInside(TypeCheck, ListWrapped[0], ListWrapped[1], map[])
  {
  }

  lemma DictWrapperLacksListCheck()
    ensures NoPairAt(DictWrapperCheck, ListCheck[0], ListCheck[1], map[])
  {
  }

  lemma DictWrapperLacksTypeEntry()
    ensures NoPairAt(DictWrapperCheck, TypeEntry[0], TypeEntry[1], map[])
  {
  }

  /** The second replacement of the generic type check never fires: the
      first one has already rewritten every occurrence to the dictionary
      check, so no list check is produced from it. */
  lemma ListWrapperOfTypeCheckIsDead(w3: string)
    ensures var w4 := ReplaceAll(w3, TypeCheck, DictWrapped);
      ReplaceAll(w4, TypeCheck, ListWrapped) == w4
  {
    TypeCheckCleanDictWrapped();
    var w4 := ReplaceAll(w3, TypeCheck, DictWrapped);
    NoOccurrence(w3, TypeCheck, DictWrapped, TypeCheck);
    AbsentUnchanged(w4, TypeCheck, ListWrapped);
  }

  /** Text with none of the seven patterns passes through unchanged. */
  lemma WrappersUnchanged(m: string)
    requires Absent(m, ImportEnum) && Absent(m, Shebang) && Absent(m, InitNoArgs)
    requires Absent(m, TypeCheck) && Absent(m, DictCheck) && Absent(m, ListCheck)
    requires Absent(m, TypeEntry)
    ensures ApplyPythonWrappers(m) == m
  {
    AbsentUnchanged(m, ImportEnum, "");
    AbsentUnchanged(m, Shebang, "");
    AbsentUnchanged(m, InitNoArgs, InitPass);
    AbsentUnchanged(m, TypeCheck, DictWrapped);
    AbsentUnchanged(m, TypeCheck, ListWrapped);
    AbsentUnchanged(m, DictCheck, DictWrapped);
    AbsentUnchanged(m, ListCheck, ListWrapped);
    AbsentUnchanged(m, TypeEntry, DictEntry);
  }

  const EnumSplit := "import import enumenum"

  /** Removing "import enum" can join the text around it into a new
      "import enum", which the wrappers then leave in place. */
  lemma EnumImportCanSurvive()
    ensures OccursAt(EnumSplit, ImportEnum, 7)
    ensures ApplyPythonWrappers(EnumSplit) == ImportEnum
  {
    EnumSplitRemoval();
    EnumTextUntouched();
    AbsentUnchanged(ImportEnum, Shebang, "");
    AbsentUnchanged(ImportEnum, InitNoArgs, InitPass);
    AbsentUnchanged(ImportEnum, TypeCheck, DictWrapped);
    AbsentUnchanged(ImportEnum, TypeCheck, ListWrapped);
    AbsentUnchanged(ImportEnum, DictCheck, DictWrapped);
    AbsentUnchanged(ImportEnum, ListCheck, ListWrapped);
    AbsentUnchanged(ImportEnum, TypeEntry, DictEntry);
    WrapperSteps(EnumSplit, ImportEnum);
  }

  lemma EnumSplitRemoval()
    ensures OccursAt(EnumSplit, ImportEnum, 7)
    ensures ReplaceAll(EnumSplit, ImportEnum, "") == ImportEnum
  {
    EnumSplitFirst();
    ReplaceLast(EnumSplit, ImportEnum, "", 7);
    EnumSplitJoin();
  }

  lemma EnumSplitJoin()
    ensures EnumSplit[..7] + "" + EnumSplit[18..] == ImportEnum
  {
    assert EnumSplit[..7] == "import ";
    assert EnumSplit[18..] == "enum";
  }

  lemma EnumSplitFirst()
    ensures OccursAt(EnumSplit, ImportEnum, 7)
    ensures forall j :: 0 <= j < 7 ==> !OccursAt(EnumSplit, ImportEnum, j)
  {
    var s := EnumSplit;
    assert s[7..18] == ImportEnum;
    forall j | 0 <= j < 7 ensures !OccursAt(s, ImportEnum, j) {
      if j == 0 {
        assert s[j..j + 11][7] != ImportEnum[7];
      } else {
        assert s[j..j + 11][0] != ImportEnum[0];
      }
    }
  }

  lemma EnumTextUntouched()
    ensures Absent(ImportEnum, Shebang) && Absent(ImportEnum, InitNoArgs)
    ensures Absent(ImportEnum, TypeCheck) && Absent(ImportEnum, DictCheck)
    ensures Absent(ImportEnum, ListCheck) && Absent(ImportEnum, TypeEntry)
  {
    AbsentByWindows(ImportEnum, Shebang, map[]);
    AbsentByWindows(ImportEnum, InitNoArgs, map[]);
    AbsentByWindows(ImportEnum, TypeCheck, map[]);
    AbsentByWindows(ImportEnum, DictCheck, map[]);
    AbsentByWindows(ImportEnum, ListCheck, map[]);
    AbsentByWindows(ImportEnum, TypeEntry, map[]);
  }

  /** The wrappers of a text whose enum-import removal yields w1, which
      every later replacement leaves alone, is w1. */
  lemma WrapperSteps(m: string, w1: string)
    requires ReplaceAll(m, ImportEnum, "") == w1
    requires ReplaceAll(w1, Shebang, "") == w1
    requires ReplaceAll(w1, InitNoArgs, InitPass) == w1
    requires ReplaceAll(w1, TypeCheck, DictWrapped) == w1
    requires ReplaceAll(w1, TypeCheck, ListWrapped) == w1
    requires ReplaceAll(w1, DictCheck, DictWrapped) == w1
    requires ReplaceAll(w1, ListCheck, ListWrapped) == w1
    requires ReplaceAll(w1, TypeEntry, DictEntry) == w1
    ensures ApplyPythonWrappers(m) == w1
  {
  }

  /** A generic type check is wrapped twice: the dictionary check the first
      replacement produces is itself matched by the later dictionary-check
      replacement, which appends a second DictWrapper test. */
  lemma TypeCheckWrappedTwice()
    ensures ApplyPythonWrappers(TypeCheck) == DictWrapped + DictWrapperCheck
  {
    TypeCheckUntouchedFirst();
    TypeCheckToDict();
    TypeCheckCleanDictWrapped();
    NoOccurrence(TypeCheck, TypeCheck, DictWrapped, TypeCheck);
    AbsentUnchanged(DictWrapped, TypeCheck, ListWrapped);
    DictCheckRewrapped();
    TwiceUntouchedLast();
  }

  lemma TypeCheckUntouchedFirst()
    ensures ReplaceAll(TypeCheck, ImportEnum, "") == TypeCheck
    ensures ReplaceAll(TypeCheck, Shebang, "") == TypeCheck
    ensures ReplaceAll(TypeCheck, InitNoArgs, InitPass) == TypeCheck
  {
    AbsentByWindows(TypeCheck, ImportEnum, map[]);
    AbsentByWindows(TypeCheck, Shebang, map[]);
    AbsentByWindows(TypeCheck, InitNoArgs, map[]);
    AbsentUnchanged(TypeCheck, ImportEnum, "");
    AbsentUnchanged(TypeCheck, Shebang, "");
    AbsentUnchanged(TypeCheck, InitNoArgs, InitPass);
  }

  lemma TypeCheckToDict()
    ensures ReplaceAll(TypeCheck, TypeCheck, DictWrapped) == DictWrapped
  {
    assert TypeCheck[..|TypeCheck|] == TypeCheck;
    assert TypeCheck[|TypeCheck|..] == "";
    assert DictWrapped + "" == DictWrapped;
  }

  lemma DictCheckRewrapped()
    ensures ReplaceAll(DictWrapped, DictCheck, DictWrapped) == DictWrapped + DictWrapperCheck
  {
    assert DictWrapped[..|DictCheck|] == DictCheck;
    assert DictWrapped[|DictCheck|..] == DictWrapperCheck;
    AbsentByWindows(DictWrapperCheck, DictCheck, map[]);
    AbsentUnchanged(DictWrapperCheck, DictCheck, DictWrapped);
  }

  lemma TwiceUntouchedLast()
    ensures ReplaceAll(DictWrapped + DictWrapperCheck, ListCheck, ListWrapped) == DictWrapped + DictWrapperCheck
    ensures ReplaceAll(DictWrapped + DictWrapperCheck, TypeEntry, DictEntry) == DictWrapped + DictWrapperCheck
  {
    TwiceHasNoListCheck();
    TwiceHasNoTypeEntry();
    AbsentUnchanged(DictWrapped + DictWrapperCheck, ListCheck, ListWrapped);
    AbsentUnchanged(DictWrapped + DictWrapperCheck, TypeEntry, DictEntry);
  }

  lemma TwiceHasNoListCheck()
    ensures Absent(DictWrapped + DictWrapperCheck, ListCheck)
  {
    DictWrapperLacksListCheck();
    NoPairJoined(DictCheck, DictWrapperCheck, ListCheck[0], ListCheck[1], map[0 := 25]);
    NoPairJoined(DictWrapped, DictWrapperCheck, ListCheck[0], ListCheck[1], map[0 := 25]);
    AbsentByWindows(DictWrapped + DictWrapperCheck, ListCheck, map[0 := 25]);
  }

  lemma TwiceHasNoTypeEntry()
    ensures Absent(DictWrapped + DictWrapperCheck, TypeEntry)
  {
    DictWrapperLacksTypeEntry();
    NoPairJoined(DictCheck, DictWrapperCheck, TypeEntry[0], TypeEntry[1], map[]);
    NoPairJoined(DictWrapped, DictWrapperCheck, TypeEntry[0], TypeEntry[1], map[]);
    AbsentByWindows(DictWrapped + DictWrapperCheck, TypeEntry, map[]);
  }
}

/** Helpers over the Data container: list equality that compares byte
    arrays by content, and inference of "the one field of a given type"
    when a step is not told which field to read. */
module DataUtils {
  import opened Results
  import opened Values
  import opened Strings

  predicate AllBytes(xs: seq<Value>) {
    forall i :: 0 <= i < |xs| ==> xs[i].VBytes?
  }

  /** The canonical NaN of Double.doubleToLongBits. */
  const CanonicalNaN: bv64 := 0x7FF8_0000_0000_0000

  /** An IEEE-754 NaN: all exponent bits set and a non-zero fraction. */
  predicate IsNaN(f: Float) {
    f.bits & 0x7FF0_0000_0000_0000 == 0x7FF0_0000_0000_0000 && f.bits & 0x000F_FFFF_FFFF_FFFF != 0
  }

  /** Double.doubleToLongBits: the bit pattern, with every NaN collapsed
      to the canonical one. */
  function DoubleToLongBits(f: Float): bv64 {
    if IsNaN(f) then CanonicalNaN else f.bits
  }

  /** Double.equals: equal doubleToLongBits, so any two NaNs are equal and
      +0.0 and -0.0 are not. */
  predicate DoubleEquals(x: Float, y: Float) {
    DoubleToLongBits(x) == DoubleToLongBits(y)
  }

  /** equals of two list elements: Double.equals for doubles, and equality
      of the values for everything else. */
  predicate ElementEquals(a: Value, b: Value) {
    if a.VDouble? && b.VDouble? then DoubleEquals(a.f, b.f) else a == b
  }

  /** List.equals: the same size and equal elements, pair by pair. */
  predicate JavaListEquals(list1: seq<Value>, list2: seq<Value>) {
    |list1| == |list2| && forall i :: 0 <= i < |list1| ==> ElementEquals(list1[i], list2[i])
  }

  /** No element is a NaN double. */
  predicate NoNaN(xs: seq<Value>) {
    forall i :: 0 <= i < |xs| ==> !(xs[i].VDouble? && IsNaN(xs[i].f))
  }

  /** Element equality is an equivalence, as equals must be. */
  lemma ElementEqualsEquivalence(a: Value, b: Value, c: Value)
    ensures ElementEquals(a, a)
    ensures ElementEquals(a, b) ==> ElementEquals(b, a)
    ensures ElementEquals(a, b) && ElementEquals(b, c) ==> ElementEquals(a, c)
  {
  }

  /** Away from NaN, Double.equals is equality of the bits. */
  lemma {:induction false} DoubleEqualsNoNaN(x: Float, y: Float)
    requires !IsNaN(x)
    ensures DoubleEquals(x, y) <==> x == y
  {
    assert IsNaN(Float(CanonicalNaN));
  }

  /** Away from NaN, List.equals is equality of the sequences. */
  lemma {:induction false} JavaListEqualsNoNaN(list1: seq<Value>, list2: seq<Value>)
    requires NoNaN(list1)
    ensures JavaListEquals(list1, list2) <==> list1 == list2
  {
    if JavaListEquals(list1, list2) {
      forall i | 0 <= i < |list1| ensures list1[i] == list2[i] {
        if list1[i].VDouble? && list2[i].VDouble? {
          DoubleEqualsNoNaN(list1[i].f, list2[i].f);
        }
      }
    }
  }

  /** Two NaNs with different payloads are equal elements, while the two
      zeros are not. */
  lemma NaNsEqualZerosDiffer()
    ensures JavaListEquals([VDouble(Float(0x7FF0_0000_0000_0001))], [VDouble(Float(CanonicalNaN))])
    ensures !JavaListEquals([VDouble(Float(0))], [VDouble(Float(0x8000_0000_0000_0000))])
  {
    assert IsNaN(Float(0x7FF0_0000_0000_0001));
    assert !IsNaN(Float(0)) && !IsNaN(Float(0x8000_0000_0000_0000));
    var pos, neg := [VDouble(Float(0))], [VDouble(Float(0x8000_0000_0000_0000))];
    assert !ElementEquals(pos[0], neg[0]);
  }

  /** listEquals(list1, list2, l1Type, l2Type). Lists of byte arrays are
      compared element by element by content; an element that is not a byte
      array fails the cast (ClassCastException) when the loop reaches it;
      nested lists are not supported; any other list uses List.equals. */
  /** The byte-array comparison from position i on, in the loop's order:
      the first element that is not a byte array fails the cast, and the
      first pair of arrays that differ makes the lists unequal. */
  function BytesCompareFrom(list1: seq<Value>, list2: seq<Value>, i: nat): (r: Result<bool>)
    requires |list1| == |list2| && i <= |list1|
    ensures r == Ok(true) ==> list1[i..] == list2[i..]
    decreases |list1| - i
  {
    if i == |list1| then Ok(true)
    else if !list1[i].VBytes? || !list2[i].VBytes? then Err(Exception(ClassCast, "Element is not a byte array"))
    else if list1[i].bytes != list2[i].bytes then Ok(false)
    else
      var rest := BytesCompareFrom(list1, list2, i + 1);
      assert rest == Ok(true) ==> list1[i..] == [list1[i]] + list1[i + 1..] == [list2[i]] + list2[i + 1..] == list2[i..];
      rest
  }

  /** On byte arrays only, the comparison is equality of the contents;
      on a mixed list it fails or answers false, and false is answered
      only for lists that differ. */
  lemma {:induction false} BytesCompareMeaning(list1: seq<Value>, list2: seq<Value>, i: nat)
    requires |list1| == |list2| && i <= |list1|
    ensures AllBytes(list1[i..]) && AllBytes(list2[i..]) ==> BytesCompareFrom(list1, list2, i) == Ok(list1[i..] == list2[i..])
    ensures BytesCompareFrom(list1, list2, i) == Ok(false) ==> list1[i..] != list2[i..]
    decreases |list1| - i
  {
    if i < |list1| {
      assert list1[i..][0] == list1[i] && list2[i..][0] == list2[i];
      if list1[i].VBytes? && list2[i].VBytes? && list1[i].bytes == list2[i].bytes {
        BytesCompareMeaning(list1, list2, i + 1);
        assert list1[i..] == [list1[i]] + list1[i + 1..];
        assert list2[i..] == [list2[i]] + list2[i + 1..];
      }
    }
  }

  method ListEquals(list1: seq<Value>, list2: seq<Value>, l1Type: ValueType, l2Type: ValueType)
    returns (r: Result<bool>)
    ensures l1Type != l2Type ==> r == Ok(false)
    ensures l1Type == l2Type && |list1| != |list2| ==> r == Ok(false)
    ensures l1Type == l2Type == LIST && |list1| == |list2| ==>
      r == Err(Exception(UnsupportedOperation, "Nested lists equality not yet implemented"))
    ensures l1Type == l2Type && l1Type != LIST && l1Type != BYTES ==> r == Ok(JavaListEquals(list1, list2))
    ensures l1Type == l2Type == BYTES && AllBytes(list1) && AllBytes(list2) ==> r == Ok(list1 == list2)
    ensures r.Err? && l1Type == BYTES ==> r.error.kind == ClassCast && !(AllBytes(list1) && AllBytes(list2))
    ensures l1Type == l2Type == BYTES && |list1| == |list2| ==> r == BytesCompareFrom(list1, list2, 0)
    ensures r == Ok(true) ==> JavaListEquals(list1, list2)
    ensures r == Ok(true) && (l1Type == BYTES || NoNaN(list1)) ==> list1 == list2
  {
    if l1Type != l2Type {
      return Ok(false);
    }
    if |list1| != |list2| {
      return Ok(false);
    }
    if l1Type == BYTES {
      var i := 0;
      while i < |list1|
        invariant 0 <= i <= |list1|
        invariant forall k :: 0 <= k < i ==> list1[k].VBytes? && list2[k].VBytes?
        invariant list1[..i] == list2[..i]
        invariant BytesCompareFrom(list1, list2, 0) == BytesCompareFrom(list1, list2, i)
      {
        if !list1[i].VBytes? || !list2[i].VBytes? {
          return Err(Exception(ClassCast, "Element is not a byte array"));
        }
        var b1 := list1[i].bytes;
        var b2 := list2[i].bytes;
        if |b1| != |b2| {
          return Ok(false);
        }
        if b1 != b2 {
          return Ok(false);
        }
        assert list1[..i + 1] == list1[..i] + [VBytes(b1)];
        assert list2[..i + 1] == list2[..i] + [VBytes(b2)];
        i := i + 1;
      }
      assert list1 == list1[..i] && list2 == list2[..i];
    } else if l1Type == LIST {
      return Err(Exception(UnsupportedOperation, "Nested lists equality not yet implemented"));
    } else {
      if !JavaListEquals(list1, list2) {
        return Ok(false);
      }
      if NoNaN(list1) {
        JavaListEqualsNoNaN(list1, list2);
      }
    }
    return Ok(true);
  }

  /** Which fields an inference looks for: a field of type vt (or, with
      allowLists, a list of vt), or a list of vt only. */
  datatype Selector = Field(vt: ValueType, allowLists: bool) | ListOf(elem: ValueType)

  predicate Selects(d: Data, sel: Selector, key: string)
    requires key in d.values
  {
    var v := d.values[key];
    match sel
    case Field(vt, allowLists) => TypeOf(v) == vt || (allowLists && v.VList? && v.elemType == vt)
    case ListOf(vt) => v.VList? && v.elemType == vt
  }

  predicate Present(d: Data, ks: seq<string>) {
    forall i :: 0 <= i < |ks| ==> ks[i] in d.values
  }

  /** The keys of ks that sel picks, in key order. */
  function Candidates(d: Data, sel: Selector, ks: seq<string>): (c: seq<string>)
    requires Present(d, ks)
    ensures |c| <= |ks|
  {
    if |ks| == 0 then []
    else
      var last := ks[|ks| - 1];
      Candidates(d, sel, ks[..|ks| - 1]) + (if Selects(d, sel, last) then [last] else [])
  }

  lemma {:induction false} CandidatesMembers(d: Data, sel: Selector, ks: seq<string>)
    requires Present(d, ks)
    ensures forall x :: x in Candidates(d, sel, ks) <==> x in ks && Selects(d, sel, x)
  {
    if |ks| > 0 {
      var init := ks[..|ks| - 1];
      CandidatesMembers(d, sel, init);
      assert ks == init + [ks[|ks| - 1]];
    }
  }

  /** Extending the key list by one key extends the candidates by that key
      when it is selected. */
  lemma CandidatesStep(d: Data, sel: Selector, ks: seq<string>, i: nat)
    requires i < |ks| && Present(d, ks)
    ensures Present(d, ks[..i]) && Present(d, ks[..i + 1])
    ensures Candidates(d, sel, ks[..i + 1]) ==
      Candidates(d, sel, ks[..i]) + (if Selects(d, sel, ks[i]) then [ks[i]] else [])
  {
    assert ks[..i + 1][..i] == ks[..i];
  }

  /** Candidates over a longer key list start with the candidates of its
      prefix; so the first two candidates are fixed once two are seen. */
  lemma {:induction false} CandidatesPrefix(d: Data, sel: Selector, ks: seq<string>, n: nat)
    requires n <= |ks| && Present(d, ks)
    ensures Present(d, ks[..n])
    ensures IsPrefixSeq(Candidates(d, sel, ks[..n]), Candidates(d, sel, ks))
    decreases |ks| - n
  {
    if n < |ks| {
      CandidatesPrefix(d, sel, ks, n + 1);
      CandidatesStep(d, sel, ks, n);
    } else {
      assert ks[..n] == ks;
    }
  }

  predicate IsPrefixSeq(a: seq<string>, b: seq<string>) {
    |a| <= |b| && b[..|a|] == a
  }

  /** String.format applied to a template whose only specifier is %s: each
      %s, left to right, takes the next argument. */
  function FormatS(t: string, args: seq<string>): string
    decreases |t|
  {
    if |t| < 2 then t
    else if t[0] == '%' && t[1] == 's' && |args| > 0 then args[0] + FormatS(t[2..], args[1..])
    else [t[0]] + FormatS(t[1..], args)
  }

  /** The outcome of an inference: the single candidate, or IllegalState with
      the formatted "multiple" message naming the first two candidates, or
      with the "none" message. */
  function InferResult(c: seq<string>, errMultipleKeys: string, errNoKeys: string): Result<string> {
    if |c| == 0 then Err(Exception(IllegalState, errNoKeys))
    else if |c| == 1 then Ok(c[0])
    else Err(Exception(IllegalState, FormatS(errMultipleKeys, [c[0], c[1]])))
  }

  lemma ValidPresent(d: Data)
    requires d.Valid()
    ensures Present(d, d.keys)
  {
    forall i | 0 <= i < |d.keys| ensures d.keys[i] in d.values {
      assert d.keys[i] in d.keys;
    }
  }

  /** The loop shared by inferField and inferListField: it remembers the
      first match and throws at the second. */
  method InferBy(d: Data, sel: Selector, errMultipleKeys: string, errNoKeys: string)
    returns (r: Result<string>)
    requires Present(d, d.keys)
    ensures r == InferResult(Candidates(d, sel, d.keys), errMultipleKeys, errNoKeys)
  {
    var field: Option<string> := None;
    var i := 0;
    CandidatesPrefix(d, sel, d.keys, 0);
    while i < |d.keys|
      invariant 0 <= i <= |d.keys|
      invariant Present(d, d.keys[..i])
      invariant field.None? ==> Candidates(d, sel, d.keys[..i]) == []
      invariant field.Some? ==> Candidates(d, sel, d.keys[..i]) == [field.value]
    {
      var s := d.keys[i];
      CandidatesStep(d, sel, d.keys, i);
      if Selects(d, sel, s) {
        if field.None? {
          field := Some(s);
        } else {
          SecondCandidate(d, sel, i + 1, field.value, s, errMultipleKeys, errNoKeys);
          return Err(Exception(IllegalState, FormatS(errMultipleKeys, [field.value, s])));
        }
      }
      i := i + 1;
    }
    assert d.keys[..i] == d.keys;
    if field.None? {
      return Err(Exception(IllegalState, errNoKeys));
    }
    return Ok(field.value);
  }

  /** Once the keys up to n hold two candidates, the inference fails
      naming those two. */
  lemma SecondCandidate(d: Data, sel: Selector, n: nat, a: string, b: string, errMultipleKeys: string, errNoKeys: string)
    requires n <= |d.keys| && Present(d, d.keys)
    requires Present(d, d.keys[..n]) && Candidates(d, sel, d.keys[..n]) == [a, b]
    ensures InferResult(Candidates(d, sel, d.keys), errMultipleKeys, errNoKeys)
      == Err(Exception(IllegalState, FormatS(errMultipleKeys, [a, b])))
  {
    CandidatesPrefix(d, sel, d.keys, n);
  }

  /** inferField(d, vt, allowLists, errMultipleKeys, errNoKeys). */
  method InferField(d: Data, vt: ValueType, allowLists: bool, errMultipleKeys: string, errNoKeys: string)
    returns (r: Result<string>)
    requires d.Valid()
    ensures r == InferResult(Candidates(d, Field(vt, allowLists), d.keys), errMultipleKeys, errNoKeys)
  {
    ValidPresent(d);
    r := InferBy(d, Field(vt, allowLists), errMultipleKeys, errNoKeys);
  }

  /** inferListField(d, vt, errMultipleKeys, errNoKeys). */
  method InferListField(d: Data, vt: ValueType, errMultipleKeys: string, errNoKeys: string)
    returns (r: Result<string>)
    requires d.Valid()
    ensures r == InferResult(Candidates(d, ListOf(vt), d.keys), errMultipleKeys, errNoKeys)
  {
    ValidPresent(d);
    r := InferBy(d, ListOf(vt), errMultipleKeys, errNoKeys);
  }

  // The fixed text of the messages, in pieces short enough for the
  // verifier to inspect character by character.
  const FieldMid1 := " was not provided could not be inferred"
  const FieldMid2 := ": multiple "
  const ListMid1 := "> field name was not provided"
  const ListMid2 := " and could not be inferred"
  const ListMid3 := ": multiple List<"
  const FieldsExist := " fields exist: "
  const ListFieldsExist := "> fields exist: "
  const And := " and "
  /** The specifier String.format fills in. */
  const Spec := "%s"

  /** The text of the "multiple" message before its first %s. */
  function FieldHead(errPrefix: string, vt: ValueType): string {
    errPrefix + ": " + ValueTypeName(vt) + FieldMid1 + FieldMid2 + ValueTypeName(vt) + FieldsExist
  }

  function FieldMultipleTemplate(errPrefix: string, vt: ValueType): string {
    FieldHead(errPrefix, vt) + Spec + And + Spec
  }

  function FieldNoneMessage(errPrefix: string, vt: ValueType): string {
    errPrefix + ": " + ValueTypeName(vt) + " field name was not provided and could not be inferred: no "
      + ValueTypeName(vt) + " fields exist"
  }

  function ListHead(errPrefix: string, vt: ValueType): string {
    errPrefix + ": List<" + ValueTypeName(vt) + ListMid1 + ListMid2 + ListMid3 + ValueTypeName(vt) + ListFieldsExist
  }

  function ListMultipleTemplate(errPrefix: string, vt: ValueType): string {
    ListHead(errPrefix, vt) + Spec + And + Spec
  }

  function ListNoneMessage(errPrefix: string, vt: ValueType): string {
    errPrefix + ": List<" + ValueTypeName(vt) + "> field name was not provided and could not be inferred: no List<"
      + ValueTypeName(vt) + "> fields exist"
  }

  /** inferField(d, vt, allowLists, errPrefix): the messages are built from
      the prefix and the type name. */
  method InferFieldWithPrefix(d: Data, vt: ValueType, allowLists: bool, errPrefix: string)
    returns (r: Result<string>)
    requires d.Valid()
    ensures r == InferResult(Candidates(d, Field(vt, allowLists), d.keys),
      FieldMultipleTemplate(errPrefix, vt), FieldNoneMessage(errPrefix, vt))
  {
    r := InferField(d, vt, allowLists, FieldMultipleTemplate(errPrefix, vt), FieldNoneMessage(errPrefix, vt));
  }

  /** inferListField(d, vt, errPrefix). */
  method InferListFieldWithPrefix(d: Data, vt: ValueType, errPrefix: string)
    returns (r: Result<string>)
    requires d.Valid()
    ensures r == InferResult(Candidates(d, ListOf(vt), d.keys),
      ListMultipleTemplate(errPrefix, vt), ListNoneMessage(errPrefix, vt))
  {
    r := InferListField(d, vt, ListMultipleTemplate(errPrefix, vt), ListNoneMessage(errPrefix, vt));
  }

  // ---- What an inference means, independently of the loop ----

  /** key is the one and only key of d that sel picks. */
  predicate Unique(d: Data, sel: Selector, key: string)
    requires d.Valid()
  {
    key in d.values && Selects(d, sel, key)
    && forall k :: k in d.values && k != key ==> !Selects(d, sel, k)
  }

  lemma {:induction false} CandidatesDistinct(d: Data, sel: Selector, ks: seq<string>)
    requires Present(d, ks)
    requires forall i, j :: 0 <= i < j < |ks| ==> ks[i] != ks[j]
    ensures forall i, j :: 0 <= i < j < |Candidates(d, sel, ks)| ==>
      Candidates(d, sel, ks)[i] != Candidates(d, sel, ks)[j]
  {
    if |ks| > 0 {
      var init := ks[..|ks| - 1];
      CandidatesDistinct(d, sel, init);
      CandidatesMembers(d, sel, init);
      assert ks[|ks| - 1] !in init;
    }
  }

  /** An inference succeeds exactly when one key is selected, and returns
      that key. */
  lemma InferOkIffUnique(d: Data, sel: Selector, m: string, n: string, key: string)
    requires d.Valid()
    ensures InferResult(Candidates(d, sel, d.keys), m, n) == Ok(key) <==> Unique(d, sel, key)
  {
    ValidPresent(d);
    var c := Candidates(d, sel, d.keys);
    CandidatesMembers(d, sel, d.keys);
    if |c| == 1 {
      assert c[0] in c;
      if Unique(d, sel, key) {
        assert key in d.keys;
        assert c[0] in d.keys && Selects(d, sel, c[0]);
      }
      if key == c[0] {
        forall k | k in d.values && k != key ensures !Selects(d, sel, k) {
          assert k in d.keys;
        }
      }
    } else if |c| >= 2 {
      CandidatesDistinct(d, sel, d.keys);
      assert c[0] != c[1];
      assert c[0] in c && c[1] in c;
    } else {
      assert Unique(d, sel, key) ==> key in d.keys;
    }
  }

  /** An inference reports "none" exactly when no key is selected. */
  lemma InferNoneIffNoneSelected(d: Data, sel: Selector, m: string, n: string)
    requires d.Valid()
    ensures (forall k :: k in d.values ==> !Selects(d, sel, k)) <==> |Candidates(d, sel, d.keys)| == 0
    ensures |Candidates(d, sel, d.keys)| == 0 ==>
      InferResult(Candidates(d, sel, d.keys), m, n) == Err(Exception(IllegalState, n))
  {
    ValidPresent(d);
    var c := Candidates(d, sel, d.keys);
    CandidatesMembers(d, sel, d.keys);
    if |c| > 0 {
      assert c[0] in c;
    } else {
      forall k | k in d.values ensures !Selects(d, sel, k) {
        assert k in d.keys;
      }
    }
  }

  lemma {:induction false} FormatSFree(x: string, t: string, args: seq<string>)
    requires Free(x, '%')
    ensures FormatS(x + t, args) == x + FormatS(t, args)
    decreases |x|
  {
    if |x| > 0 {
      var xt := x + t;
      assert xt[0] == x[0];
      assert xt[1..] == x[1..] + t;
      assert Free(x[1..], '%') by {
        forall i | 0 <= i < |x[1..]| ensures x[1..][i] != '%' {
          assert x[1..][i] == x[i + 1];
        }
      }
      FormatSFree(x[1..], t, args);
      if |xt| >= 2 {
        assert FormatS(xt, args) == [x[0]] + FormatS(xt[1..], args);
      }
      assert [x[0]] + x[1..] == x;
    } else {
      assert x + t == t;
    }
  }

  /** Formatting "x%sy%s" with two arguments when x and y hold no '%'. */
  lemma FormatTwo(x: string, y: string, a: string, b: string)
    requires Free(x, '%') && Free(y, '%')
    ensures FormatS(x + Spec + y + Spec, [a, b]) == x + a + y + b
  {
    var t := Spec + y + Spec;
    assert x + Spec + y + Spec == x + t;
    FormatSFree(x, t, [a, b]);
    assert t[0] == '%' && t[1] == 's' && t[2..] == y + Spec;
    assert [a, b][1..] == [b];
    assert FormatS(t, [a, b]) == a + FormatS(y + Spec, [b]);
    FormatSFree(y, Spec, [b]);
    assert Spec[2..] == "" && [b][1..] == [];
    assert FormatS(Spec, [b]) == b + FormatS("", []);
  }

  lemma FreeConcat(a: string, b: string, c: char)
    requires Free(a, c) && Free(b, c)
    ensures Free(a + b, c)
  {
    forall i | 0 <= i < |a + b| ensures (a + b)[i] != c {
      if i >= |a| {
        assert (a + b)[i] == b[i - |a|];
      }
    }
  }

  /** With a prefix holding no '%', the "multiple" message of inferField
      names the first two matching fields in key order. */
  lemma FieldMultipleMessage(d: Data, vt: ValueType, allowLists: bool, errPrefix: string)
    requires d.Valid()
    requires Free(errPrefix, '%')
    requires |Candidates(d, Field(vt, allowLists), d.keys)| >= 2
    ensures var c := Candidates(d, Field(vt, allowLists), d.keys);
      InferResult(c, FieldMultipleTemplate(errPrefix, vt), FieldNoneMessage(errPrefix, vt))
      == Err(Exception(IllegalState, errPrefix + ": " + ValueTypeName(vt) + FieldMid1 + FieldMid2
           + ValueTypeName(vt) + FieldsExist + c[0] + And + c[1]))
  {
    var c := Candidates(d, Field(vt, allowLists), d.keys);
    FieldHeadFree(errPrefix, vt);
    FormatTwo(FieldHead(errPrefix, vt), And, c[0], c[1]);
  }

  lemma FieldHeadFree(errPrefix: string, vt: ValueType)
    requires Free(errPrefix, '%')
    ensures Free(FieldHead(errPrefix, vt), '%')
  {
    var n := ValueTypeName(vt);
    FreeConcat(errPrefix, ": ", '%');
    FreeConcat(errPrefix + ": ", n, '%');
    FreeConcat(errPrefix + ": " + n, FieldMid1, '%');
    FreeConcat(errPrefix + ": " + n + FieldMid1, FieldMid2, '%');
    FreeConcat(errPrefix + ": " + n + FieldMid1 + FieldMid2, n, '%');
    FreeConcat(errPrefix + ": " + n + FieldMid1 + FieldMid2 + n, FieldsExist, '%');
  }

  /** With a prefix holding no '%', the "multiple" message of inferListField
      names the first two matching list fields in key order. */
  lemma ListMultipleMessage(d: Data, vt: ValueType, errPrefix: string)
    requires d.Valid()
    requires Free(errPrefix, '%')
    requires |Candidates(d, ListOf(vt), d.keys)| >= 2
    ensures var c := Candidates(d, ListOf(vt), d.keys);
      InferResult(c, ListMultipleTemplate(errPrefix, vt), ListNoneMessage(errPrefix, vt))
      == Err(Exception(IllegalState, errPrefix + ": List<" + ValueTypeName(vt) + ListMid1 + ListMid2 + ListMid3
           + ValueTypeName(vt) + ListFieldsExist + c[0] + And + c[1]))
  {
    var c := Candidates(d, ListOf(vt), d.keys);
    ListHeadFree(errPrefix, vt);
    FormatTwo(ListHead(errPrefix, vt), And, c[0], c[1]);
  }

  lemma ListHeadFree(errPrefix: string, vt: ValueType)
    requires Free(errPrefix, '%')
    ensures Free(ListHead(errPrefix, vt), '%')
  {
    var n := ValueTypeName(vt);
    FreeConcat(errPrefix, ": List<", '%');
    FreeConcat(errPrefix + ": List<", n, '%');
    FreeConcat(errPrefix + ": List<" + n, ListMid1, '%');
    FreeConcat(errPrefix + ": List<" + n + ListMid1, ListMid2, '%');
    FreeConcat(errPrefix + ": List<" + n + ListMid1 + ListMid2, ListMid3, '%');
    FreeConcat(errPrefix + ": List<" + n + ListMid1 + ListMid2 + ListMid3, n, '%');
    FreeConcat(errPrefix + ": List<" + n + ListMid1 + ListMid2 + ListMid3 + n, ListFieldsExist, '%');
  }

}

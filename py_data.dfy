/** Marshalling between the host's Data container and guest (Python)
    objects: the classification ladder of toJava and pyListToJava, the
    per-type switch of toPython and jListToPython, and the accepts/adapt
    gate.  Numpy arrays, PIL images and byte buffers cross as opaque
    handles. */
module PyDataModel {
  import opened Results
  import opened Values

  // ---- Guest objects ----

  /** A key that a guest mapping's keys() yields; it need not be a str. */
  datatype GuestKey = StrKey(s: string) | OtherKey(typeName: string)

  /** Guest objects as the marshalling code sees them.  An instance of a
      user class (the guest BoundingBox among them) is its type's __name__
      and its attributes; a mapping (the guest Data class) is its items in
      keys() order. */
  datatype GuestValue =
    | GStr(s: string)
    | GInt(n: int64)
    | GFloat(bits: bv64)
    | GBool(b: bool)
    | GMemView(bytes: seq<bv8>)
    | GNdArray(arr: NDArray)
    | GPilImage(img: Image)
    | GNone
    | GList(items: seq<GuestValue>)
    | GMapping(entries: seq<GuestEntry>)
    | GObject(typeName: string, attrs: map<string, GuestValue>)

  datatype GuestEntry = GuestEntry(key: GuestKey, value: GuestValue)

  /** Which reading of the code a conversion follows: the code as it
      stands, or with the defects listed in the README corrected (the bool
      test before the int test in the ladder, a None label or probability
      read back as null, list bounding boxes read from each item, and a
      break after the LIST case of toPython). */
  datatype Variant = AsWritten | Corrected

  // ---- The classification ladder (toJava, pyListToJava) ----

  /** The branches of the ladder, in the order the code tests them. */
  datatype Kind = KStr | KInt | KFloat | KBool | KMemView | KNdArray | KPil | KBox | KList | KData

  /** The test each branch applies: isinstance for the builtin types, where
      bool is a subclass of int, so a bool passes the int test too; the PIL
      type lookup; a type __name__ equal to "BoundingBox"; and the final
      else, which takes anything. */
  predicate Matches(k: Kind, v: GuestValue) {
    match k
    case KStr => v.GStr?
    case KInt => v.GInt? || v.GBool?
    case KFloat => v.GFloat?
    case KBool => v.GBool?
    case KMemView => v.GMemView?
    case KNdArray => v.GNdArray?
    case KPil => v.GPilImage?
    case KBox => v.GObject? && v.typeName == BoxTypeName
    case KList => v.GList?
    case KData => true
  }

  const BoxTypeName := "BoundingBox"

  /** The order of the tests: as written, int comes before bool; corrected,
      bool comes first, so that a bool is not caught by the int test. */
  function Ladder(variant: Variant): seq<Kind> {
    if variant == AsWritten then [KStr, KInt, KFloat, KBool, KMemView, KNdArray, KPil, KBox, KList, KData]
    else [KStr, KBool, KInt, KFloat, KMemView, KNdArray, KPil, KBox, KList, KData]
  }

  /** The first branch of ks whose test v passes. */
  function FirstMatch(ks: seq<Kind>, v: GuestValue): Option<Kind> {
    if |ks| == 0 then None
    else if Matches(ks[0], v) then Some(ks[0])
    else FirstMatch(ks[1..], v)
  }

  /** The branch the ladder takes for v.  As written, the bool branch is
      dead: every bool has already passed the int test. */
  function Classify(v: GuestValue, variant: Variant): (k: Kind)
    ensures Matches(k, v)
    ensures variant == AsWritten ==> k != KBool
  {
    match v
    case GStr(_) => KStr
    case GInt(_) => KInt
    case GBool(_) => if variant == AsWritten then KInt else KBool
    case GFloat(_) => KFloat
    case GMemView(_) => KMemView
    case GNdArray(_) => KNdArray
    case GPilImage(_) => KPil
    case GObject(name, _) => if name == BoxTypeName then KBox else KData
    case GList(_) => KList
    case GMapping(_) => KData
    case GNone => KData
  }

  /** Classify takes exactly the branch the ordered tests select. */
  lemma ClassifyIsFirstMatch(v: GuestValue, variant: Variant)
    ensures FirstMatch(Ladder(variant), v) == Some(Classify(v, variant))
  {
    var ks := Ladder(variant);
    var k := Classify(v, variant);
    assert k in ks;
    var i :| 0 <= i < |ks| && ks[i] == k;
    forall j | 0 <= j < i ensures !Matches(ks[j], v) {
      assert ks[j] != k;
    }
    FirstMatchAt(ks, v, i);
  }

  /** The scan returns the first position whose test passes. */
  lemma {:induction false} FirstMatchAt(ks: seq<Kind>, v: GuestValue, i: nat)
    requires i < |ks| && Matches(ks[i], v)
    requires forall j :: 0 <= j < i ==> !Matches(ks[j], v)
    ensures FirstMatch(ks, v) == Some(ks[i])
  {
    if i > 0 {
      FirstMatchAt(ks[1..], v, i - 1);
    }
  }

  /** The value type each branch stores. */
  function KindType(k: Kind): ValueType {
    match k
    case KStr => STRING
    case KInt => INT64
    case KFloat => DOUBLE
    case KBool => BOOLEAN
    case KMemView => BYTES
    case KNdArray => NDARRAY
    case KPil => IMAGE
    case KBox => BOUNDING_BOX
    case KList => LIST
    case KData => DATA
  }

  predicate IsScalarKind(k: Kind) {
    !(k.KBox? || k.KList? || k.KData?)
  }

  const ExpectedPrefix := "Expected "
  const EmptyListMessage := "Cannot infer type from empty list."
  const StringKeyExpected := "String key expected."
  const NoAttribute := "object has no attribute "
  const NotReal := "must be real number: "
  const NoStr := "str() not modelled: "

  function KindName(k: Kind): string {
    match k
    case KStr => "str"
    case KInt => "int"
    case KFloat => "float"
    case KBool => "bool"
    case KMemView => "memoryview"
    case KNdArray => "ndarray"
    case KPil => "PIL.Image"
    case KBox => BoxTypeName
    case KList => "list"
    case KData => "Data"
  }

  /** The converter of a scalar branch (STR, INT, FLOAT, BOOL, MEMORYVIEW,
      numpy, PIL) applied to one object: it accepts the objects the
      branch's test accepts, and INT reads a bool as the int 1 or 0. */
  function ScalarToJava(k: Kind, v: GuestValue): (r: Result<Value>)
    requires IsScalarKind(k)
    ensures r.Ok? <==> Matches(k, v)
    ensures r.Ok? ==> TypeOf(r.value) == KindType(k)
    ensures r.Err? ==> r.error == Exception(Python, ExpectedPrefix + KindName(k))
    ensures k == KInt && v.GBool? ==> r == Ok(VInt64(if v.b then 1 else 0))
  {
    var mismatch := Err(Exception(Python, ExpectedPrefix + KindName(k)));
    match v
    case GStr(s) => if k == KStr then Ok(VString(s)) else mismatch
    case GInt(n) => if k == KInt then Ok(VInt64(n)) else mismatch
    case GBool(b) =>
      if k == KBool then Ok(VBoolean(b))
      else if k == KInt then Ok(VInt64(if b then 1 else 0))
      else mismatch
    case GFloat(bits) => if k == KFloat then Ok(VDouble(Float(bits))) else mismatch
    case GMemView(bytes) => if k == KMemView then Ok(VBytes(bytes)) else mismatch
    case GNdArray(a) => if k == KNdArray then Ok(VNDArray(a)) else mismatch
    case GPilImage(img) => if k == KPil then Ok(VImage(img)) else mismatch
    case _ => mismatch
  }

  /** attr(name).toDouble(). */
  function AttrFloat(o: GuestValue, name: string): Result<Float> {
    if !o.GObject? || name !in o.attrs then Err(Exception(Python, NoAttribute + name))
    else if o.attrs[name].GFloat? then Ok(Float(o.attrs[name].bits))
    else Err(Exception(Python, NotReal + name))
  }

  /** attr(name).toString(): str() of a str is itself, of None "None", of
      a bool "True" or "False", and of an int its decimal digits. */
  function AttrString(o: GuestValue, name: string): Result<string> {
    if !o.GObject? || name !in o.attrs then Err(Exception(Python, NoAttribute + name))
    else match o.attrs[name]
      case GStr(s) => Ok(s)
      case GNone => Ok("None")
      case GBool(b) => Ok(if b then "True" else "False")
      case GInt(n) => Ok(IntStr(n))
      case _ => Err(Exception(Python, NoStr + name))
  }

  predicate IsDigit(c: char) {
    '0' <= c <= '9'
  }

  /** The decimal digits of n, with no leading zero. */
  function Digits(n: nat): (s: string)
    ensures |s| > 0 && forall i :: 0 <= i < |s| ==> IsDigit(s[i])
    ensures |s| > 1 ==> s[0] != '0'
  {
    if n < 10 then [('0' as int + n) as char]
    else Digits(n / 10) + [('0' as int + n % 10) as char]
  }

  /** str() of an int: a minus sign before the digits of a negative. */
  function IntStr(n: int): string {
    if n < 0 then "-" + Digits(-n) else Digits(n)
  }

  /** The number a string of decimal digits denotes. */
  function DigitsValue(s: string): nat
    requires forall i :: 0 <= i < |s| ==> IsDigit(s[i])
  {
    if |s| == 0 then 0
    else
      assert IsDigit(s[|s| - 1]);
      DigitsValue(s[..|s| - 1]) * 10 + (s[|s| - 1] as int - '0' as int)
  }

  /** The digits read back as the number they were printed from. */
  lemma {:induction false} DigitsRoundTrip(n: nat)
    ensures DigitsValue(Digits(n)) == n
  {
    if n >= 10 {
      DigitsRoundTrip(n / 10);
      var s := Digits(n);
      assert s[..|s| - 1] == Digits(n / 10);
    }
  }

  /** str() of an int determines the int: the sign, then the digits. */
  lemma IntStrInjective(m: int, n: int)
    requires IntStr(m) == IntStr(n)
    ensures m == n
  {
    if m < 0 {
      assert IntStr(m)[0] == '-';
      assert IntStr(n)[0] == '-';
      assert Digits(-m) == IntStr(m)[1..] == Digits(-n);
      DigitsRoundTrip(-m);
      DigitsRoundTrip(-n);
    } else {
      assert IsDigit(IntStr(m)[0]);
      assert IntStr(n)[0] != '-';
      DigitsRoundTrip(m);
      DigitsRoundTrip(n);
    }
  }

  /** attr(name) read as an optional double: None is null. */
  function AttrOptFloat(o: GuestValue, name: string): Result<Option<Float>> {
    if o.GObject? && name in o.attrs && o.attrs[name].GNone? then Ok(None)
    else var f :- AttrFloat(o, name); Ok(Some(f))
  }

  /** attr(name) read as an optional string: None is null. */
  function AttrOptString(o: GuestValue, name: string): Result<Option<string>> {
    if o.GObject? && name in o.attrs && o.attrs[name].GNone? then Ok(None)
    else var s :- AttrString(o, name); Ok(Some(s))
  }

  /** BoundingBox.create from the attributes cx, cy, height, width, label
      and probability of o, read in that order.  As written, the label is
      read with toString(), so None becomes "None", and the probability
      with toDouble(), which refuses None; corrected, None is null. */
  function BoxFrom(o: GuestValue, variant: Variant): (r: Result<BoundingBox>)
    ensures r.Ok? ==> o.GObject?
  {
    var cx :- AttrFloat(o, "cx");
    var cy :- AttrFloat(o, "cy");
    var h :- AttrFloat(o, "height");
    var w :- AttrFloat(o, "width");
    if variant == AsWritten then
      var text :- AttrString(o, "label");
      var p :- AttrFloat(o, "probability");
      Ok(BoundingBox(cx, cy, h, w, Some(text), Some(p)))
    else
      var name :- AttrOptString(o, "label");
      var p :- AttrOptFloat(o, "probability");
      Ok(BoundingBox(cx, cy, h, w, name, p))
  }

  /** The body of toJava's loop for one value: the ladder, then the
      branch's conversion. */
  function ValueToJava(v: GuestValue, variant: Variant): (r: Result<Value>)
    ensures r.Ok? ==> TypeOf(r.value) == KindType(Classify(v, variant))
    decreases v, 2
  {
    var k := Classify(v, variant);
    match k
    case KBox =>
      var b :- BoxFrom(v, variant);
      Ok(VBoundingBox(b))
    case KList =>
      var l :- ListToJava(v, variant);
      Ok(VList(l.1, l.0))
    case KData =>
      var d :- DataToJava(v, variant);
      Ok(VData(d))
    case _ => ScalarToJava(k, v)
  }

  /** pyListToJava: an empty list is refused; otherwise the first item
      picks the branch and every item goes through that branch's
      converter. */
  function ListToJava(v: GuestValue, variant: Variant): (r: Result<(seq<Value>, ValueType)>)
    requires v.GList?
    ensures |v.items| == 0 ==> r == Err(Exception(Python, EmptyListMessage))
    ensures r.Ok? ==> |v.items| > 0 && r.value.1 == KindType(Classify(v.items[0], variant))
    ensures r.Ok? ==> |r.value.0| == |v.items|
    decreases v, 1
  {
    if |v.items| == 0 then Err(Exception(Python, EmptyListMessage))
    else
      var k := Classify(v.items[0], variant);
      var vals :- Collect(ElementConversions(k, v, variant), |v.items|);
      Ok((vals, KindType(k)))
  }

  /** The conversion of each item of list through the chosen branch. */
  function ElementConversions(k: Kind, v: GuestValue, variant: Variant): (rs: seq<Result<Value>>)
    requires v.GList?
    ensures |rs| == |v.items|
    ensures forall i :: 0 <= i < |rs| ==> rs[i] == ElementToJava(k, v, v.items[i], variant)
    decreases v, 0
  {
    seq(|v.items|, i requires 0 <= i < |v.items| => ElementToJava(k, v, v.items[i], variant))
  }

  /** The loop body of the chosen branch for one item of list.  As
      written, the BoundingBox branch reads the attributes of the list,
      not of the item. */
  function ElementToJava(k: Kind, list: GuestValue, item: GuestValue, variant: Variant): (r: Result<Value>)
    ensures r.Ok? ==> TypeOf(r.value) == KindType(k)
    decreases item, 3
  {
    match k
    case KBox =>
      var b :- BoxFrom(if variant == AsWritten then list else item, variant);
      Ok(VBoundingBox(b))
    case KList =>
      if item.GList? then
        var l :- ListToJava(item, variant);
        Ok(VList(l.1, l.0))
      else if item.GStr? then
        var s := item.s;
        if |s| == 0 then Err(Exception(Python, EmptyListMessage))
        else Ok(VList(STRING, seq(|s|, j requires 0 <= j < |s| => VString([s[j]]))))
      else if item.GMemView? then
        var bytes := item.bytes;
        if |bytes| == 0 then Err(Exception(Python, EmptyListMessage))
        else Ok(VList(INT64, seq(|bytes|, j requires 0 <= j < |bytes| => VInt64(bytes[j] as int))))
      else Err(Exception(Python, ExpectedPrefix + KindName(KList)))
    case KData =>
      var d :- DataToJava(item, variant);
      Ok(VData(d))
    case _ => ScalarToJava(k, item)
  }

  /** What pyListToJava reads from an object through len() and get(i): a
      list's items, a str's one-character strs, and a memoryview's bytes as
      ints.  Other objects are not read this way here. */
  function LenGetItems(o: GuestValue): Option<seq<GuestValue>> {
    match o
    case GList(items) => Some(items)
    case GStr(s) => Some(seq(|s|, j requires 0 <= j < |s| => GStr([s[j]])))
    case GMemView(bytes) => Some(seq(|bytes|, j requires 0 <= j < |bytes| => GInt(bytes[j] as int)))
    case _ => None
  }

  /** In a list led by a list, an item goes through pyListToJava itself:
      whatever len() and get(i) read from it is converted as a list, so a
      str becomes the STRING list of its characters and a memoryview the
      INT64 list of its bytes; an item they cannot read is refused. */
  lemma ListItemThroughLenGet(list: GuestValue, item: GuestValue, variant: Variant)
    ensures LenGetItems(item).None? ==> ElementToJava(KList, list, item, variant).Err?
    ensures LenGetItems(item).Some? ==>
      ElementToJava(KList, list, item, variant)
      == (var l :- ListToJava(GList(LenGetItems(item).value), variant); Ok(VList(l.1, l.0)))
  {
    match item
    case GStr(s) => if |s| > 0 { CharsAsList(s, variant); }
    case GMemView(bytes) => if |bytes| > 0 { BytesAsList(bytes, variant); }
    case _ =>
  }

  lemma CharsAsList(s: string, variant: Variant)
    requires |s| > 0
    ensures ListToJava(GList(LenGetItems(GStr(s)).value), variant)
      == Ok((seq(|s|, j requires 0 <= j < |s| => VString([s[j]])), STRING))
  {
    var g := GList(LenGetItems(GStr(s)).value);
    var rs := ElementConversions(KStr, g, variant);
    forall i | 0 <= i < |s| ensures rs[i] == Ok(VString([s[i]])) {
      assert g.items[i] == GStr([s[i]]);
    }
    CollectMeaning(rs, |s|);
    ListToJavaIsCollect(g, variant);
    assert Classify(g.items[0], variant) == KStr;
    assert Collect(rs, |s|).value == seq(|s|, j requires 0 <= j < |s| => VString([s[j]]));
  }

  lemma BytesAsList(bytes: seq<bv8>, variant: Variant)
    requires |bytes| > 0
    ensures ListToJava(GList(LenGetItems(GMemView(bytes)).value), variant)
      == Ok((seq(|bytes|, j requires 0 <= j < |bytes| => VInt64(bytes[j] as int)), INT64))
  {
    var g := GList(LenGetItems(GMemView(bytes)).value);
    var vals := seq(|bytes|, j requires 0 <= j < |bytes| => VInt64(bytes[j] as int));
    var rs := ElementConversions(KInt, g, variant);
    forall i | 0 <= i < |bytes| ensures rs[i] == Ok(vals[i]) {
      assert g.items[i] == GInt(bytes[i] as int);
    }
    CollectMeaning(rs, |bytes|);
    assert Collect(rs, |bytes|).value == vals;
    assert Classify(g.items[0], variant) == KInt;
    ListToJavaIsCollect(g, variant);
  }

  /** [[1, 2], "ab"] becomes the LIST [[1, 2], ["a", "b"]]. */
  lemma StrItemOfNestedList(variant: Variant)
    ensures ListToJava(GList([GList([GInt(1), GInt(2)]), GStr("ab")]), variant)
      == Ok(([VList(INT64, [VInt64(1), VInt64(2)]), VList(STRING, [VString("a"), VString("b")])], LIST))
  {
    var inner := GList([GInt(1), GInt(2)]);
    var v := GList([inner, GStr("ab")]);
    var ints := [VInt64(1), VInt64(2)];
    var chars := [VString("a"), VString("b")];
    NestedItems(v, variant);
    var rs := ElementConversions(KList, v, variant);
    assert rs[0] == Ok(VList(INT64, ints)) && rs[1] == Ok(VList(STRING, chars));
    assert Collect(rs, 0) == Ok([]);
    CollectStep(rs, 0);
    CollectStep(rs, 1);
    var first, second := VList(INT64, ints), VList(STRING, chars);
    assert [] + [first] + [second] == [first, second];
    assert Classify(v.items[0], variant) == KList;
    ListToJavaIsCollect(v, variant);
  }

  lemma NestedItems(v: GuestValue, variant: Variant)
    ensures ElementToJava(KList, v, GList([GInt(1), GInt(2)]), variant) == Ok(VList(INT64, [VInt64(1), VInt64(2)]))
    ensures ElementToJava(KList, v, GStr("ab"), variant) == Ok(VList(STRING, [VString("a"), VString("b")]))
  {
    IntPairAsList(variant);
    CharsAsList("ab", variant);
    assert seq(2, j requires 0 <= j < 2 => VString(["ab"[j]])) == [VString("a"), VString("b")];
  }

  lemma IntPairAsList(variant: Variant)
    ensures ListToJava(GList([GInt(1), GInt(2)]), variant) == Ok(([VInt64(1), VInt64(2)], INT64))
  {
    var inner := GList([GInt(1), GInt(2)]);
    var rs := ElementConversions(KInt, inner, variant);
    assert rs[0] == Ok(VInt64(1)) && rs[1] == Ok(VInt64(2));
    CollectMeaning(rs, 2);
    ListToJavaIsCollect(inner, variant);
    assert Collect(rs, 2).value == [VInt64(1), VInt64(2)];
  }


  /** toJava: a guest mapping becomes a Data holding its keys in keys()
      order; anything else has no keys() to call. */
  function DataToJava(v: GuestValue, variant: Variant): (r: Result<Data>)
    ensures r.Ok? ==> v.GMapping?
    decreases v, 1
  {
    if !v.GMapping? then Err(Exception(Python, NoAttribute + "keys"))
    else
      var es := Converted(v, variant);
      PutAll(es, |es|)
  }

  /** Each key of a guest mapping with the conversion of its value. */
  function Converted(v: GuestValue, variant: Variant): (es: seq<(GuestKey, Result<Value>)>)
    requires v.GMapping?
    ensures |es| == |v.entries|
    ensures forall i :: 0 <= i < |es| ==> es[i] == (v.entries[i].key, ValueToJava(v.entries[i].value, variant))
    decreases v, 0
  {
    seq(|v.entries|, i requires 0 <= i < |v.entries| =>
      (v.entries[i].key, ValueToJava(v.entries[i].value, variant)))
  }

  /** toJava's loop over the first n keys, given each key with its value's
      conversion: it stops at the first key that is not a str or value that
      fails, and puts the others in order. */
  function PutAll(es: seq<(GuestKey, Result<Value>)>, n: nat): (r: Result<Data>)
    requires n <= |es|
  {
    if n == 0 then Ok(EmptyData)
    else
      var prev :- PutAll(es, n - 1);
      var (key, conv) := es[n - 1];
      if !key.StrKey? then Err(Exception(Python, StringKeyExpected))
      else
        var x :- conv;
        Ok(prev.Put(key.s, x))
  }

  // ---- toJava and pyListToJava as they run ----

  /** toJava: one pass over the keys, stopping at the first key that is
      not a str or value that does not convert. */
  method ToJava(v: GuestValue, variant: Variant) returns (r: Result<Data>)
    ensures r == DataToJava(v, variant)
    decreases v, 1
  {
    if !v.GMapping? {
      return Err(Exception(Python, NoAttribute + "keys"));
    }
    ghost var es := Converted(v, variant);
    var data := EmptyData;
    var i := 0;
    while i < |v.entries|
      invariant 0 <= i <= |v.entries|
      invariant PutAll(es, i) == Ok(data)
    {
      var e := v.entries[i];
      PutAllNext(es, i);
      if !e.key.StrKey? {
        PutAllErrorStops(es, i + 1, |es|);
        return Err(Exception(Python, StringKeyExpected));
      }
      var x := ConvertValue(e.value, variant);
      assert es[i] == (e.key, x);
      if x.Err? {
        PutAllErrorStops(es, i + 1, |es|);
        return Err(x.error);
      }
      data := data.Put(e.key.s, x.value);
      i := i + 1;
    }
    return Ok(data);
  }

  /** The ladder for one value of toJava's loop. */
  method ConvertValue(v: GuestValue, variant: Variant) returns (r: Result<Value>)
    ensures r == ValueToJava(v, variant)
    decreases v, 2
  {
    var k := Classify(v, variant);
    if k == KList {
      var l := PyListToJava(v, variant);
      r := if l.Ok? then Ok(VList(l.value.1, l.value.0)) else Err(l.error);
    } else if k == KData {
      var d := ToJava(v, variant);
      r := if d.Ok? then Ok(VData(d.value)) else Err(d.error);
    } else {
      // A box or a scalar: no nested conversion.
      r := ValueToJava(v, variant);
    }
  }

  /** pyListToJava. */
  method PyListToJava(v: GuestValue, variant: Variant) returns (r: Result<(seq<Value>, ValueType)>)
    requires v.GList?
    ensures r == ListToJava(v, variant)
    decreases v, 1
  {
    if |v.items| == 0 {
      return Err(Exception(Python, EmptyListMessage));
    }
    var k := Classify(v.items[0], variant);
    ghost var rs := ElementConversions(k, v, variant);
    ListToJavaIsCollect(v, variant);
    var vals: seq<Value> := [];
    var i := 0;
    while i < |v.items|
      invariant 0 <= i <= |v.items|
      invariant Collect(rs, i) == Ok(vals)
    {
      var x := ConvertElement(k, v, v.items[i], variant);
      assert rs[i] == x;
      CollectStep(rs, i);
      if x.Err? {
        CollectErrorStops(rs, i + 1, |rs|);
        return Err(x.error);
      }
      vals := vals + [x.value];
      i := i + 1;
    }
    return Ok((vals, KindType(k)));
  }

  /** pyListToJava of a non-empty list is the collected conversions of its
      items, tagged with the first item's type. */
  lemma ListToJavaIsCollect(v: GuestValue, variant: Variant)
    requires v.GList? && |v.items| > 0
    ensures var k := Classify(v.items[0], variant);
      var c := Collect(ElementConversions(k, v, variant), |v.items|);
      ListToJava(v, variant) == if c.Ok? then Ok((c.value, KindType(k))) else Err(c.error)
  {
  }

  /** The loop body of pyListToJava's chosen branch for one item. */
  method ConvertElement(k: Kind, list: GuestValue, item: GuestValue, variant: Variant)
    returns (r: Result<Value>)
    ensures r == ElementToJava(k, list, item, variant)
    decreases item, 3
  {
    if k == KList && item.GList? {
      var l := PyListToJava(item, variant);
      r := if l.Ok? then Ok(VList(l.value.1, l.value.0)) else Err(l.error);
    } else if k == KData {
      var d := ToJava(item, variant);
      r := if d.Ok? then Ok(VData(d.value)) else Err(d.error);
    } else {
      // A box, a scalar, or a str or memoryview read as a list of its
      // characters or bytes: no nested conversion.
      r := ElementToJava(k, list, item, variant);
    }
  }

  /** A failure at key i is the failure of the whole loop. */
  lemma {:induction false} PutAllErrorStops(es: seq<(GuestKey, Result<Value>)>, i: nat, n: nat)
    requires i <= n <= |es| && PutAll(es, i).Err?
    ensures PutAll(es, n) == PutAll(es, i)
    decreases n
  {
    if n > i {
      PutAllErrorStops(es, i, n - 1);
    }
  }

  // ---- What toJava and pyListToJava promise ----

  predicate AllStrKeys(es: seq<GuestEntry>) {
    forall i :: 0 <= i < |es| ==> es[i].key.StrKey?
  }

  /** The keys of a guest mapping, as the strings they are. */
  function KeyNames(es: seq<GuestEntry>): (ks: seq<string>)
    requires AllStrKeys(es)
  {
    seq(|es|, i requires 0 <= i < |es| => es[i].key.s)
  }

  /** A guest mapping never yields the same key twice. */
  predicate DistinctKeys(es: seq<GuestEntry>) {
    forall i, j :: 0 <= i < j < |es| ==> es[i].key != es[j].key
  }

  /** Each of the first n keys is a str and each of their values
      converted. */
  predicate PrefixConverts(es: seq<(GuestKey, Result<Value>)>, n: nat)
    requires n <= |es|
  {
    forall i :: 0 <= i < n ==> es[i].0.StrKey? && es[i].1.Ok?
  }

  /** toJava's loop over the first n keys succeeds exactly when each of
      those keys is a str and each of their values converts. */
  lemma {:induction false} PutAllOk(es: seq<(GuestKey, Result<Value>)>, n: nat)
    requires n <= |es|
    ensures PutAll(es, n).Ok? <==> PrefixConverts(es, n)
  {
    if n > 0 {
      PutAllOk(es, n - 1);
    }
  }

  /** Keys that a guest mapping yields at most once. */
  predicate DistinctFirst(es: seq<(GuestKey, Result<Value>)>) {
    forall i, j :: 0 <= i < j < |es| ==> es[i].0 != es[j].0
  }

  /** One more key of toJava's loop: when the first n + 1 keys go through,
      so do the first n, and key n is a str whose value converted. */
  lemma PutAllStep(es: seq<(GuestKey, Result<Value>)>, n: nat)
    requires n < |es| && PutAll(es, n + 1).Ok?
    ensures PutAll(es, n).Ok? && es[n].0.StrKey? && es[n].1.Ok?
    ensures PutAll(es, n + 1) == Ok(PutAll(es, n).value.Put(es[n].0.s, es[n].1.value))
  {
  }

  /** One more key of toJava's loop. */
  lemma PutAllNext(es: seq<(GuestKey, Result<Value>)>, n: nat)
    requires n < |es| && PutAll(es, n).Ok?
    ensures !es[n].0.StrKey? ==> PutAll(es, n + 1) == Err(Exception(Python, StringKeyExpected))
    ensures es[n].0.StrKey? && es[n].1.Err? ==> PutAll(es, n + 1) == Err(es[n].1.error)
    ensures es[n].0.StrKey? && es[n].1.Ok? ==> PutAll(es, n + 1) == Ok(PutAll(es, n).value.Put(es[n].0.s, es[n].1.value))
  {
  }

  /** The names of the first n keys, all of them str. */
  function KeysOf(es: seq<(GuestKey, Result<Value>)>, n: nat): (ks: seq<string>)
    requires n <= |es| && forall i :: 0 <= i < n ==> es[i].0.StrKey?
    ensures |ks| == n && forall i :: 0 <= i < n ==> ks[i] == es[i].0.s
  {
    if n == 0 then [] else KeysOf(es, n - 1) + [es[n - 1].0.s]
  }

  /** The first n keys, each with its value's conversion. */
  function ValuesOf(es: seq<(GuestKey, Result<Value>)>, n: nat): map<string, Value>
    requires n <= |es| && forall i :: 0 <= i < n ==> es[i].0.StrKey? && es[i].1.Ok?
  {
    if n == 0 then map[] else ValuesOf(es, n - 1)[es[n - 1].0.s := es[n - 1].1.value]
  }

  /** The Data toJava's loop builds keeps each key once, in keys(), with a
      value. */
  lemma {:induction false} PutAllValid(es: seq<(GuestKey, Result<Value>)>, n: nat)
    requires n <= |es| && PutAll(es, n).Ok?
    ensures PutAll(es, n).value.Valid()
  {
    if n > 0 {
      PutAllStep(es, n - 1);
      PutAllValid(es, n - 1);
    }
  }

  /** With distinct keys, each of the first n keys maps to its own value's
      conversion. */
  lemma {:induction false} ValuesOfAt(es: seq<(GuestKey, Result<Value>)>, n: nat, i: nat)
    requires n <= |es| && DistinctFirst(es) && PrefixConverts(es, n) && i < n
    ensures es[i].0.s in ValuesOf(es, n) && ValuesOf(es, n)[es[i].0.s] == es[i].1.value
  {
    if i < n - 1 {
      ValuesOfAt(es, n - 1, i);
      assert es[i].0 != es[n - 1].0;
    }
  }

  /** With distinct keys, toJava's loop over the first n keys succeeds with
      exactly those keys in order, each holding its value's conversion. */
  lemma {:induction false} PutAllBuilds(es: seq<(GuestKey, Result<Value>)>, n: nat)
    requires n <= |es| && DistinctFirst(es) && PutAll(es, n).Ok?
    ensures PrefixConverts(es, n)
    ensures PutAll(es, n).value == Data(KeysOf(es, n), ValuesOf(es, n))
  {
    PutAllOk(es, n);
    if n > 0 {
      PutAllStep(es, n - 1);
      PutAllBuilds(es, n - 1);
      NewKeyFresh(es, n - 1);
    }
  }

  lemma NewKeyFresh(es: seq<(GuestKey, Result<Value>)>, n: nat)
    requires n < |es| && DistinctFirst(es) && PrefixConverts(es, n) && es[n].0.StrKey?
    ensures es[n].0.s !in KeysOf(es, n)
  {
    var ks := KeysOf(es, n);
    forall j | 0 <= j < n ensures ks[j] != es[n].0.s {
      assert es[j].0 != es[n].0;
    }
  }

  /** toJava converts a guest mapping with distinct keys exactly when every
      key is a str and every value converts; the result lists the keys in
      keys() order, each holding its own value's conversion. */
  lemma ToJavaMeaning(v: GuestValue, variant: Variant)
    requires v.GMapping? && DistinctKeys(v.entries)
    ensures var es := v.entries;
      DataToJava(v, variant).Ok?
      <==> forall i :: 0 <= i < |es| ==> es[i].key.StrKey? && ValueToJava(es[i].value, variant).Ok?
    ensures var r := DataToJava(v, variant);
      r.Ok? ==> (r.value.Valid() && AllStrKeys(v.entries) && r.value.keys == KeyNames(v.entries)
        && forall i :: 0 <= i < |v.entries| ==>
          (v.entries[i].key.s in r.value.values
           && r.value.values[v.entries[i].key.s] == ValueToJava(v.entries[i].value, variant).value))
  {
    var es := Converted(v, variant);
    PutAllOk(es, |es|);
    if DataToJava(v, variant).Ok? {
      ConvertedDistinct(v, variant);
      PutAllValid(es, |es|);
      PutAllBuilds(es, |es|);
      AllValuesOf(es);
    }
  }

  lemma ConvertedDistinct(v: GuestValue, variant: Variant)
    requires v.GMapping? && DistinctKeys(v.entries)
    ensures DistinctFirst(Converted(v, variant))
  {
    var es := Converted(v, variant);
    forall i, j | 0 <= i < j < |es| ensures es[i].0 != es[j].0 {
      assert v.entries[i].key != v.entries[j].key;
    }
  }

  lemma AllValuesOf(es: seq<(GuestKey, Result<Value>)>)
    requires DistinctFirst(es) && PrefixConverts(es, |es|)
    ensures forall i :: 0 <= i < |es| ==>
      es[i].0.s in ValuesOf(es, |es|) && ValuesOf(es, |es|)[es[i].0.s] == es[i].1.value
  {
    forall i | 0 <= i < |es|
      ensures es[i].0.s in ValuesOf(es, |es|) && ValuesOf(es, |es|)[es[i].0.s] == es[i].1.value
    {
      ValuesOfAt(es, |es|, i);
    }
  }


  /** pyListToJava: the first item alone picks the element type; the
      host list has one element per guest item, each converted by that
      type's converter, and the conversion fails if any item does. */
  lemma ListToJavaMeaning(v: GuestValue, variant: Variant)
    requires v.GList? && |v.items| > 0
    ensures var k := Classify(v.items[0], variant);
      ListToJava(v, variant).Ok? <==> forall i :: 0 <= i < |v.items| ==> ElementToJava(k, v, v.items[i], variant).Ok?
    ensures var k := Classify(v.items[0], variant);
      var r := ListToJava(v, variant);
      r.Ok? ==> (r.value.1 == KindType(k) && |r.value.0| == |v.items|
        && forall i :: 0 <= i < |v.items| ==> r.value.0[i] == ElementToJava(k, v, v.items[i], variant).value)
  {
    CollectMeaning(ElementConversions(Classify(v.items[0], variant), v, variant), |v.items|);
  }

  /** As written, a list whose first item is a guest BoundingBox always
      fails: the attributes are looked up on the list. */
  lemma BoxListFailsAsWritten(v: GuestValue)
    requires v.GList? && |v.items| > 0 && Classify(v.items[0], AsWritten) == KBox
    ensures ListToJava(v, AsWritten) == Err(Exception(Python, NoAttribute + "cx"))
  {
    CollectErrorStops(ElementConversions(KBox, v, AsWritten), 1, |v.items|);
  }

  /** Reading each item's attributes, a list of guest BoundingBoxes
      becomes the list of their boxes. */
  lemma BoxListCorrected(v: GuestValue)
    requires v.GList? && |v.items| > 0
    requires forall i :: 0 <= i < |v.items| ==> v.items[i].GObject? && v.items[i].typeName == BoxTypeName
    requires forall i :: 0 <= i < |v.items| ==> BoxFrom(v.items[i], Corrected).Ok?
    ensures var r := ListToJava(v, Corrected);
      r.Ok? && r.value.1 == BOUNDING_BOX
      && forall i :: 0 <= i < |v.items| ==> r.value.0[i] == VBoundingBox(BoxFrom(v.items[i], Corrected).value)
  {
    ListToJavaMeaning(v, Corrected);
  }

  // ---- Host to guest (toPython, jListToPython) ----

  const DataClassName := "Data"
  const ResourceError := "Error reading pydata.py"
  const UnsupportedInList := "Unsupported type in list: "
  const MissingGlobal := "KeyError: "
  const CannotCastTo := " cannot be cast to "

  /** The branch of the corrected ladder that reads back a value of type t;
      as written, no guest object reaches the BOOLEAN branch. */
  function KindOfType(t: ValueType): (k: Kind)
    ensures KindType(k) == t
  {
    match t
    case STRING => KStr
    case INT64 => KInt
    case DOUBLE => KFloat
    case BOOLEAN => KBool
    case BYTES => KMemView
    case NDARRAY => KNdArray
    case IMAGE => KPil
    case BOUNDING_BOX => KBox
    case LIST => KList
    case DATA => KData
  }

  /** The host values that cross as one guest object with no lookup in the
      guest globals: the four scalars, bytes, arrays and images. */
  predicate IsLeaf(v: Value) {
    !(v.VBoundingBox? || v.VList? || v.VData?)
  }

  /** PythonTypes.convert of a STRING, INT64, DOUBLE or BOOLEAN, the
      memoryview over a byte[], and the numpy and PIL handles. */
  function LeafToPython(v: Value): (g: GuestValue)
    requires IsLeaf(v)
  {
    match v
    case VString(s) => GStr(s)
    case VInt64(n) => GInt(n)
    case VDouble(f) => GFloat(f.bits)
    case VBoolean(b) => GBool(b)
    case VBytes(bytes) => GMemView(bytes)
    case VNDArray(a) => GNdArray(a)
    case VImage(img) => GPilImage(img)
  }

  /** A guest optional: None when the host value is null. */
  function StrOrNone(o: Option<string>): GuestValue {
    match o
    case Some(s) => GStr(s)
    case None => GNone
  }

  function FloatOrNone(o: Option<Float>): GuestValue {
    match o
    case Some(f) => GFloat(f.bits)
    case None => GNone
  }

  /** The guest BoundingBox class called with cx, cy, height, width, label
      and probability, its instance keeping each argument under that
      name. */
  function BoxToPython(b: BoundingBox): GuestValue {
    GObject(BoxTypeName, map[
      "cx" := GFloat(b.cx.bits), "cy" := GFloat(b.cy.bits),
      "height" := GFloat(b.height.bits), "width" := GFloat(b.width.bits),
      "label" := StrOrNone(b.classLabel), "probability" := FloatOrNone(b.probability)])
  }

  /** The corrected ladder of toJava reads each leaf back to the same
      value. */
  lemma LeafRoundTrip(v: Value)
    requires IsLeaf(v)
    ensures IsScalarKind(KindOfType(TypeOf(v))) && Classify(LeafToPython(v), Corrected) == KindOfType(TypeOf(v))
    ensures ScalarToJava(KindOfType(TypeOf(v)), LeafToPython(v)) == Ok(v)
  {
  }

  /** As written, toJava's BoundingBox branch reads a box with a label and
      a probability back unchanged; a null label, sent as None, comes back
      as the string "None", and a null probability, sent as None, cannot be
      read back. */
  lemma BoxRoundTrip(b: BoundingBox)
    ensures Classify(BoxToPython(b), AsWritten) == KBox && Classify(BoxToPython(b), Corrected) == KBox
    ensures b.classLabel.Some? && b.probability.Some? ==> BoxFrom(BoxToPython(b), AsWritten) == Ok(b)
    ensures b.classLabel.None? && b.probability.Some? ==> BoxFrom(BoxToPython(b), AsWritten) == Ok(b.(classLabel := Some("None")))
    ensures b.probability.None? ==> BoxFrom(BoxToPython(b), AsWritten) == Err(Exception(Python, NotReal + "probability"))
  {
    BoxAttrs(b);
  }

  /** The four coordinates of a box sent to the guest read back as sent. */
  lemma BoxAttrs(b: BoundingBox)
    ensures AttrFloat(BoxToPython(b), "cx") == Ok(b.cx) && AttrFloat(BoxToPython(b), "cy") == Ok(b.cy)
    ensures AttrFloat(BoxToPython(b), "height") == Ok(b.height) && AttrFloat(BoxToPython(b), "width") == Ok(b.width)
  {
  }

  /** Reading None back as null, every box comes back unchanged, null
      label and probability included. */
  lemma BoxRoundTripCorrected(b: BoundingBox)
    ensures BoxFrom(BoxToPython(b), Corrected) == Ok(b)
  {
    BoxAttrs(b);
  }

  /** globals().get("BoundingBox") called with the box's fields. */
  function BoxWithGlobals(b: BoundingBox, globals: set<string>): (r: Result<GuestValue>)
    ensures r.Ok? <==> BoxTypeName in globals
    ensures r.Ok? ==> r.value == BoxToPython(b)
  {
    if BoxTypeName !in globals then Err(Exception(Python, MissingGlobal + BoxTypeName))
    else Ok(BoxToPython(b))
  }

  /** The element types whose branch of jListToPython hands each item to
      PythonTypes.convert, which picks the guest type from the item itself. */
  predicate IsPrimitive(t: ValueType) {
    t == STRING || t == INT64 || t == DOUBLE || t == BOOLEAN
  }

  const NoGuestType := "Unable to find python type for java type: "

  /** One item of a host list whose element type t has a branch in
      jListToPython.  The four primitive branches convert any primitive item
      by its own type, with no cast; the other branches cast the item to
      the type of the branch, and a box needs the guest BoundingBox class. */
  function ItemToPython(t: ValueType, item: Value, globals: set<string>): (r: Result<GuestValue>)
    requires t != LIST && t != DATA
    ensures IsPrimitive(t) ==> (r.Ok? <==> IsPrimitive(TypeOf(item)))
    ensures IsPrimitive(t) && r.Ok? ==> Classify(r.value, Corrected) == KindOfType(TypeOf(item))
    ensures !IsPrimitive(t) ==> (r.Ok? ==> TypeOf(item) == t)
    ensures !IsPrimitive(t) && TypeOf(item) != t ==> r.Err? && r.error.kind == ClassCast
    ensures TypeOf(item) == t && t != BOUNDING_BOX ==> r.Ok?
  {
    if IsPrimitive(t) then
      if IsPrimitive(TypeOf(item)) then LeafRoundTrip(item); Ok(LeafToPython(item))
      else Err(Exception(Python, NoGuestType + ValueTypeName(TypeOf(item))))
    else if TypeOf(item) != t then Err(Exception(ClassCast, ValueTypeName(TypeOf(item)) + CannotCastTo + ValueTypeName(t)))
    else if item.VBoundingBox? then BoxWithGlobals(item.box, globals)
    else Ok(LeafToPython(item))
  }

  /** jListToPython: the branch of the element type converts each item in
      order.  The LIST branch converts each item as a list of lists and
      then falls into the default throw, so it never returns a list; DATA
      has no branch. */
  function ListToPython(t: ValueType, items: seq<Value>, globals: set<string>): (r: Result<GuestValue>)
    ensures t == LIST || t == DATA ==> r.Err?
    ensures r.Ok? ==> r.value.GList? && |r.value.items| == |items|
    decreases items
  {
    match t
    case DATA => Err(Exception(Python, UnsupportedInList + ValueTypeName(DATA)))
    case LIST =>
      if |items| == 0 then Err(Exception(Python, UnsupportedInList + ValueTypeName(LIST)))
      else if !items[0].VList? then Err(Exception(ClassCast, ValueTypeName(TypeOf(items[0])) + CannotCastTo + ValueTypeName(LIST)))
      else
        var inner := ListToPython(LIST, items[0].items, globals);
        if inner.Err? then Err(inner.error)
        else Err(Exception(Python, UnsupportedInList + ValueTypeName(LIST)))
    case _ =>
      var gs :- Collect(ItemConversions(t, items, globals), |items|);
      Ok(GList(gs))
  }

  /** The conversion of each item through the branch of t. */
  function ItemConversions(t: ValueType, items: seq<Value>, globals: set<string>): (rs: seq<Result<GuestValue>>)
    requires t != LIST && t != DATA
    ensures |rs| == |items|
    ensures forall i :: 0 <= i < |rs| ==> rs[i] == ItemToPython(t, items[i], globals)
  {
    seq(|items|, i requires 0 <= i < |items| => ItemToPython(t, items[i], globals))
  }


  /** The last position below n of key among a guest mapping's keys, if
      any. */
  function FindKey(es: seq<GuestEntry>, key: GuestKey, n: nat): (r: Option<nat>)
    requires n <= |es|
    ensures r.Some? ==> r.value < n && es[r.value].key == key
    ensures r.None? ==> forall i :: 0 <= i < n ==> es[i].key != key
  {
    if n == 0 then None
    else if es[n - 1].key == key then Some(n - 1)
    else FindKey(es, key, n - 1)
  }

  /** data.set(key, value) on the guest Data object: an existing key takes
      the new value in place, a new key goes to the end of keys(). */
  function SetItem(es: seq<GuestEntry>, key: string, g: GuestValue): seq<GuestEntry> {
    match FindKey(es, StrKey(key), |es|)
    case Some(i) => es[i := GuestEntry(StrKey(key), g)]
    case None => es + [GuestEntry(StrKey(key), g)]
  }

  /** Setting a key the guest Data does not hold yet appends it. */
  lemma SetItemMeaning(es: seq<GuestEntry>, key: string, g: GuestValue)
    ensures (forall i :: 0 <= i < |es| ==> es[i].key != StrKey(key)) ==> SetItem(es, key, g) == es + [GuestEntry(StrKey(key), g)]
  {
  }

  /** toPython: a fresh guest Data with every key of d set, in keys()
      order. */
  function DataToPython(d: Data, globals: set<string>, variant: Variant): (r: Result<GuestValue>)
    ensures r.Ok? ==> r.value.GMapping?
    decreases d, 4
  {
    var cs := KeyConversions(d, globals, variant);
    var es :- SetAll(cs, |cs|);
    Ok(GMapping(es))
  }

  /** Each key of d with the conversion of its value. */
  function KeyConversions(d: Data, globals: set<string>, variant: Variant): (cs: seq<(string, Result<GuestValue>)>)
    ensures |cs| == |d.keys|
    ensures forall i :: 0 <= i < |cs| ==> cs[i] == (d.keys[i], KeyToPython(d, d.keys[i], globals, variant))
    decreases d, 3
  {
    seq(|d.keys|, i requires 0 <= i < |d.keys| => (d.keys[i], KeyToPython(d, d.keys[i], globals, variant)))
  }

  /** toPython's loop over the first n keys, given each key with its
      value's conversion: it stops at the first conversion that fails and
      sets the others in order. */
  function SetAll(cs: seq<(string, Result<GuestValue>)>, n: nat): (r: Result<seq<GuestEntry>>)
    requires n <= |cs|
  {
    if n == 0 then Ok([])
    else
      var prev :- SetAll(cs, n - 1);
      var g :- cs[n - 1].1;
      Ok(SetItem(prev, cs[n - 1].0, g))
  }

  /** toPython for one key: its type, then the switch on that type. */
  function KeyToPython(d: Data, key: string, globals: set<string>, variant: Variant): (r: Result<GuestValue>)
    ensures key !in d.values ==> r.Err?
    decreases d, 2
  {
    var t :- d.Type(key);
    SwitchToPython(d, key, globals, variant)
  }

  /** The switch of toPython on the type of a key that holds a value.  As
      written, the LIST case has no break: after setting the list it goes
      on into the DATA case. */
  function SwitchToPython(d: Data, key: string, globals: set<string>, variant: Variant): (r: Result<GuestValue>)
    requires key in d.values
    decreases d, 1
  {
    match TypeOf(d.values[key])
    case BOUNDING_BOX => BoxWithGlobals(d.values[key].box, globals)
    case LIST =>
      var l :- ListToPython(d.values[key].elemType, d.values[key].items, globals);
      if variant == AsWritten then DataCase(d, key, globals, variant) else Ok(l)
    case DATA => DataCase(d, key, globals, variant)
    case _ => Ok(LeafToPython(d.values[key]))
  }


  /** The DATA case: toPython of getData(key). */
  function DataCase(d: Data, key: string, globals: set<string>, variant: Variant): (r: Result<GuestValue>)
    ensures r.Ok? ==> key in d.values && d.values[key].VData?
    decreases d, 0
  {
    var inner :- d.GetData(key);
    assert inner < d by {
      assert VData(inner) == d.values[key];
    }
    DataToPython(inner, globals, variant)
  }

  // ---- toPython and jListToPython as they run ----

  /** The guest interpreter, as far as toPython touches it: the names bound
      in its globals. */
  class Interpreter {
    var globals: set<string>

    constructor(globals: set<string>)
      ensures this.globals == globals
    {
      this.globals := globals;
    }

    /** toPython.  When the guest Data class is not defined yet, the
        pydata.py resource is executed first; resource holds the names that
        executing it binds, or None when it cannot be read.  The second
        lookup, globals().get("Data"), is a subscript and fails with a
        KeyError when executing the resource did not bind "Data".  The
        globals only ever grow, and only when "Data" was missing. */
    method ToPython(d: Data, resource: Option<set<string>>, variant: Variant) returns (r: Result<GuestValue>)
      modifies this
      ensures DataClassName in old(globals) ==> globals == old(globals)
      ensures DataClassName !in old(globals) ==> globals == old(globals) + resource.GetOr({})
      ensures DataClassName !in old(globals) && resource.None? ==> r == Err(Exception(Python, ResourceError))
      ensures resource.Some? && DataClassName !in globals
        ==> r == Err(Exception(Python, MissingGlobal + DataClassName))
      ensures DataClassName in globals ==> r == DataToPython(d, globals, variant)
      decreases d, 3
    {
      if DataClassName !in globals {
        if resource.None? {
          return Err(Exception(Python, ResourceError));
        }
        globals := globals + resource.value;
        if DataClassName !in globals {
          return Err(Exception(Python, MissingGlobal + DataClassName));
        }
      }
      r := FillData(d, variant);
    }

    /** The body of toPython once the Data class is defined: a fresh guest
        Data, then one set per key in keys() order. */
    method FillData(d: Data, variant: Variant) returns (r: Result<GuestValue>)
      requires DataClassName in globals
      ensures r == DataToPython(d, globals, variant)
      decreases d, 2
    {
      ghost var cs := KeyConversions(d, globals, variant);
      var es: seq<GuestEntry> := [];
      var i := 0;
      while i < |d.keys|
        invariant 0 <= i <= |d.keys|
        invariant SetAll(cs, i) == Ok(es)
      {
        var key := d.keys[i];
        var x := ConvertKey(d, key, variant);
        assert cs[i] == (key, x);
        SetAllStep(cs, i);
        if x.Err? {
          SetAllErrorStops(cs, i + 1, |cs|);
          return Err(x.error);
        }
        es := SetItem(es, key, x.value);
        i := i + 1;
      }
      return Ok(GMapping(es));
    }

    /** The switch of toPython for one key; the DATA case calls toPython
        again, which finds "Data" defined. */
    method ConvertKey(d: Data, key: string, variant: Variant) returns (r: Result<GuestValue>)
      requires DataClassName in globals
      ensures r == KeyToPython(d, key, globals, variant)
      decreases d, 1
    {
      var t := d.Type(key);
      if t.Err? {
        return Err(t.error);
      }
      assert KeyToPython(d, key, globals, variant) == SwitchToPython(d, key, globals, variant);
      if t.value == BOUNDING_BOX {
        return BoxWithGlobals(d.values[key].box, globals);
      }
      if t.value == LIST {
        var l := JListToPython(d.values[key].elemType, d.values[key].items);
        if l.Err? {
          return Err(l.error);
        }
        if variant == Corrected {
          return l;
        }
      }
      if t.value == LIST || t.value == DATA {
        var inner := d.GetData(key);
        ghost var dataCase := DataCase(d, key, globals, variant);
        if inner.Err? {
          assert dataCase == Err(inner.error);
          return Err(inner.error);
        }
        assert inner.value < d by {
          assert VData(inner.value) == d.values[key];
        }
        r := FillData(inner.value, variant);
        assert dataCase == r;
        return;
      }
      return Ok(LeafToPython(d.values[key]));
    }

    /** jListToPython. */
    method JListToPython(t: ValueType, items: seq<Value>) returns (r: Result<GuestValue>)
      ensures r == ListToPython(t, items, globals)
      decreases items
    {
      if t == DATA {
        return Err(Exception(Python, UnsupportedInList + ValueTypeName(DATA)));
      }
      if t == LIST {
        // The loop's first pass always throws, so no later item is reached.
        if |items| > 0 {
          if !items[0].VList? {
            return Err(Exception(ClassCast, ValueTypeName(TypeOf(items[0])) + CannotCastTo + ValueTypeName(LIST)));
          }
          r := JListToPython(LIST, items[0].items);
          return;
        }
        return Err(Exception(Python, UnsupportedInList + ValueTypeName(LIST)));
      }
      var gs := ConvertItems(t, items);
      r := if gs.Ok? then Ok(GList(gs.value)) else Err(gs.error);
    }

    /** The loop of the branch of jListToPython for element type t. */
    method ConvertItems(t: ValueType, items: seq<Value>) returns (r: Result<seq<GuestValue>>)
      requires t != LIST && t != DATA
      ensures r == Collect(ItemConversions(t, items, globals), |items|)
    {
      ghost var rs := ItemConversions(t, items, globals);
      var gs: seq<GuestValue> := [];
      var i := 0;
      while i < |items|
        invariant 0 <= i <= |items|
        invariant Collect(rs, i) == Ok(gs)
      {
        var x := ItemToPython(t, items[i], globals);
        assert rs[i] == x;
        CollectStep(rs, i);
        if x.Err? {
          CollectErrorStops(rs, i + 1, |rs|);
          return Err(x.error);
        }
        gs := gs + [x.value];
        i := i + 1;
      }
      return Ok(gs);
    }
  }

  /** A failure at key i is the failure of the whole loop. */
  lemma {:induction false} SetAllErrorStops(cs: seq<(string, Result<GuestValue>)>, i: nat, n: nat)
    requires i <= n <= |cs| && SetAll(cs, i).Err?
    ensures SetAll(cs, n) == SetAll(cs, i)
    decreases n
  {
    if n > i {
      SetAllErrorStops(cs, i, n - 1);
    }
  }

  /** One more key of toPython's loop. */
  lemma SetAllStep(cs: seq<(string, Result<GuestValue>)>, i: nat)
    requires i < |cs| && SetAll(cs, i).Ok?
    ensures cs[i].1.Err? ==> SetAll(cs, i + 1) == Err(cs[i].1.error)
    ensures cs[i].1.Ok? ==> SetAll(cs, i + 1) == Ok(SetItem(SetAll(cs, i).value, cs[i].0, cs[i].1.value))
  {
  }

  // ---- accepts and adapt ----

  /** The objects the host hands to the converter registry. */
  datatype HostObject = HostData(data: Data) | HostOther(className: string)

  /** accepts: exactly the Data objects. */
  predicate Accepts(o: HostObject) {
    o.HostData?
  }

  /** adapt: a Data is returned as it is; anything else cannot be cast. */
  function Adapt(o: HostObject): (r: Result<Data>)
    ensures r.Ok? <==> Accepts(o)
    ensures r.Ok? ==> r.value == o.data
    ensures !Accepts(o) ==> r == Err(Exception(Python, "Cannot cast class " + o.className + " to Data."))
  {
    match o
    case HostData(d) => Ok(d)
    case HostOther(name) => Err(Exception(Python, "Cannot cast class " + name + " to Data."))
  }

  // ---- What toPython promises ----

  /** toPython's loop over the first n keys succeeds exactly when each of
      those keys converts. */
  lemma {:induction false} SetAllOk(cs: seq<(string, Result<GuestValue>)>, n: nat)
    requires n <= |cs|
    ensures SetAll(cs, n).Ok? <==> forall i :: 0 <= i < n ==> cs[i].1.Ok?
  {
    if n > 0 {
      SetAllOk(cs, n - 1);
    }
  }

  /** When the keys are distinct, toPython's loop over the first n keys
      sets each of them once, in keys() order, to its own conversion. */
  lemma {:induction false} SetAllSets(cs: seq<(string, Result<GuestValue>)>, n: nat)
    requires n <= |cs| && forall i, j :: 0 <= i < j < |cs| ==> cs[i].0 != cs[j].0
    requires SetAll(cs, n).Ok?
    ensures forall i :: 0 <= i < n ==> cs[i].1.Ok?
    ensures var es := SetAll(cs, n).value;
      |es| == n && forall i :: 0 <= i < n ==> es[i] == GuestEntry(StrKey(cs[i].0), cs[i].1.value)
  {
    SetAllOk(cs, n);
    if n > 0 {
      SetAllOk(cs, n - 1);
      SetAllSets(cs, n - 1);
      var prev := SetAll(cs, n - 1).value;
      forall i | 0 <= i < n - 1 ensures prev[i].key != StrKey(cs[n - 1].0) {
        assert cs[i].0 != cs[n - 1].0;
      }
      SetItemMeaning(prev, cs[n - 1].0, cs[n - 1].1.value);
    }
  }

  /** toPython of a valid Data succeeds exactly when every key converts,
      and the guest Data then holds each key once, in keys() order, with
      its own conversion. */
  lemma DataToPythonMeaning(d: Data, globals: set<string>, variant: Variant)
    requires d.Valid()
    ensures DataToPython(d, globals, variant).Ok?
      <==> forall i :: 0 <= i < |d.keys| ==> KeyToPython(d, d.keys[i], globals, variant).Ok?
    ensures var r := DataToPython(d, globals, variant);
      r.Ok? ==> (r.value.GMapping? && |r.value.entries| == |d.keys|
        && forall i :: 0 <= i < |d.keys| ==>
          r.value.entries[i] == GuestEntry(StrKey(d.keys[i]), KeyToPython(d, d.keys[i], globals, variant).value))
  {
    var cs := KeyConversions(d, globals, variant);
    SetAllOk(cs, |cs|);
    if DataToPython(d, globals, variant).Ok? {
      assert forall i, j :: 0 <= i < j < |cs| ==> cs[i].0 != cs[j].0;
      SetAllSets(cs, |cs|);
    }
  }

  /** As written, a Data holding a LIST never reaches the guest: after its
      list is set, the missing break leads into getData, which refuses a
      LIST key. */
  lemma ListKeyFailsAsWritten(d: Data, key: string, globals: set<string>)
    requires d.Valid() && key in d.values && d.values[key].VList?
    ensures DataToPython(d, globals, AsWritten).Err?
  {
    var j :| 0 <= j < |d.keys| && d.keys[j] == key;
    assert KeyToPython(d, d.keys[j], globals, AsWritten).Err?;
    DataToPythonMeaning(d, globals, AsWritten);
  }

  /** With the break, a LIST key holds jListToPython of its list. */
  lemma ListKeyCorrected(d: Data, key: string, globals: set<string>)
    requires key in d.values && d.values[key].VList?
    requires ListToPython(d.values[key].elemType, d.values[key].items, globals).Ok?
    ensures KeyToPython(d, key, globals, Corrected)
      == ListToPython(d.values[key].elemType, d.values[key].items, globals)
  {
  }

  // ---- Host to guest and back ----

  /** The host values toPython sends and toJava reads back as they were:
      scalars and boxes, non-empty lists of one scalar or box type, and Data
      made of such values. */
  ghost predicate PlainValue(v: Value)
    decreases v, 1
  {
    match v
    case VList(t, items) =>
      && t != LIST && t != DATA && |items| > 0
      && forall i :: 0 <= i < |items| ==> TypeOf(items[i]) == t && PlainValue(items[i])
    case VData(d) => PlainData(d)
    case _ => true
  }

  ghost predicate PlainData(d: Data)
    decreases d, 0
  {
    d.Valid() && forall k :: k in d.values ==> PlainValue(d.values[k])
  }

  /** One item of a plain list crosses and comes back through the branch
      of its type. */
  lemma ItemRoundTrip(t: ValueType, list: GuestValue, item: Value, globals: set<string>)
    requires t != LIST && t != DATA && TypeOf(item) == t && PlainValue(item)
    requires BoxTypeName in globals
    ensures ItemToPython(t, item, globals).Ok?
    ensures ElementToJava(KindOfType(t), list, ItemToPython(t, item, globals).value, Corrected) == Ok(item)
  {
    if item.VBoundingBox? {
      BoxRoundTripCorrected(item.box);
    } else {
      LeafRoundTrip(item);
    }
  }

  /** A plain list crosses as a guest list and pyListToJava reads back
      the same items with the same element type. */
  lemma ListRoundTrip(t: ValueType, items: seq<Value>, globals: set<string>)
    requires t != LIST && t != DATA && |items| > 0
    requires forall i :: 0 <= i < |items| ==> TypeOf(items[i]) == t && PlainValue(items[i])
    requires BoxTypeName in globals
    ensures ListToPython(t, items, globals).Ok?
    ensures ListToJava(ListToPython(t, items, globals).value, Corrected) == Ok((items, t))
  {
    var rs := ItemConversions(t, items, globals);
    forall i | 0 <= i < |items| ensures rs[i].Ok? {
      ItemRoundTrip(t, GNone, items[i], globals);
    }
    CollectMeaning(rs, |items|);
    var g := ListToPython(t, items, globals).value;
    assert Classify(g.items[0], Corrected) == KindOfType(t) by {
      ItemRoundTrip(t, GNone, items[0], globals);
      if t == BOUNDING_BOX {
        BoxRoundTrip(items[0].box);
      } else {
        LeafRoundTrip(items[0]);
      }
    }
    forall i | 0 <= i < |items|
      ensures ElementToJava(KindOfType(t), g, g.items[i], Corrected) == Ok(items[i])
    {
      ItemRoundTrip(t, g, items[i], globals);
    }
    ListToJavaMeaning(g, Corrected);
    var r := ListToJava(g, Corrected);
    assert r.value.0 == items;
  }

  /** The switch of toPython with the break, by type. */
  lemma SwitchCorrected(d: Data, key: string, globals: set<string>)
    requires key in d.values
    ensures var v := d.values[key];
      var r := KeyToPython(d, key, globals, Corrected);
      && (v.VBoundingBox? ==> r == BoxWithGlobals(v.box, globals))
      && (v.VList? ==> r == ListToPython(v.elemType, v.items, globals))
      && (v.VData? ==> r == DataToPython(v.data, globals, Corrected))
      && (IsLeaf(v) ==> r == Ok(LeafToPython(v)))
  {
    var v := d.values[key];
    assert KeyToPython(d, key, globals, Corrected) == SwitchToPython(d, key, globals, Corrected);
    if v.VData? {
      assert d.GetData(key) == Ok(v.data);
      assert SwitchToPython(d, key, globals, Corrected) == DataCase(d, key, globals, Corrected);
      assert DataCase(d, key, globals, Corrected) == DataToPython(v.data, globals, Corrected);
    }
  }

  /** toJava's ladder reads back a guest box, list or mapping as the host
      value it came from. */
  lemma BoxValueBack(b: BoundingBox)
    ensures ValueToJava(BoxToPython(b), Corrected) == Ok(VBoundingBox(b))
  {
    BoxRoundTripCorrected(b);
  }

  lemma LeafValueBack(v: Value)
    requires IsLeaf(v)
    ensures ValueToJava(LeafToPython(v), Corrected) == Ok(v)
  {
    LeafRoundTrip(v);
  }

  lemma ListValueBack(g: GuestValue, t: ValueType, items: seq<Value>)
    requires g.GList? && ListToJava(g, Corrected) == Ok((items, t))
    ensures ValueToJava(g, Corrected) == Ok(VList(t, items))
  {
  }

  lemma DataValueBack(g: GuestValue, d: Data)
    requires DataToJava(g, Corrected) == Ok(d)
    ensures ValueToJava(g, Corrected) == Ok(VData(d))
  {
    assert Classify(g, Corrected) == KData;
  }

  /** The value of one key of a plain Data crosses and comes back. */
  lemma {:induction false} KeyRoundTrip(d: Data, key: string, globals: set<string>)
    requires PlainData(d) && key in d.values && BoxTypeName in globals
    ensures KeyToPython(d, key, globals, Corrected).Ok?
    ensures ValueToJava(KeyToPython(d, key, globals, Corrected).value, Corrected) == Ok(d.values[key])
    decreases d, 0
  {
    var v := d.values[key];
    SwitchCorrected(d, key, globals);
    match v
    case VBoundingBox(b) =>
      BoxValueBack(b);
    case VList(t, items) =>
      ListRoundTrip(t, items, globals);
      ListValueBack(ListToPython(t, items, globals).value, t, items);
    case VData(inner) =>
      assert inner < d by {
        assert VData(inner) == d.values[key];
      }
      DataRoundTrip(inner, globals);
      DataValueBack(DataToPython(inner, globals, Corrected).value, inner);
    case _ =>
      LeafValueBack(v);
  }

  /** With the break after the LIST case, toJava reads back exactly the
      plain Data that toPython sent, keys in the same order. */
  lemma {:induction false} DataRoundTrip(d: Data, globals: set<string>)
    requires PlainData(d) && BoxTypeName in globals
    ensures DataToPython(d, globals, Corrected).Ok?
    ensures DataToJava(DataToPython(d, globals, Corrected).value, Corrected) == Ok(d)
    decreases d, 1
  {
    forall i | 0 <= i < |d.keys| ensures KeyToPython(d, d.keys[i], globals, Corrected).Ok? {
      KeyRoundTrip(d, d.keys[i], globals);
    }
    DataToPythonMeaning(d, globals, Corrected);
    var g := DataToPython(d, globals, Corrected).value;
    assert DistinctKeys(g.entries);
    forall i | 0 <= i < |g.entries|
      ensures g.entries[i].key.StrKey? && ValueToJava(g.entries[i].value, Corrected) == Ok(d.values[d.keys[i]])
    {
      KeyRoundTrip(d, d.keys[i], globals);
    }
    ToJavaMeaning(g, Corrected);
    var r := DataToJava(g, Corrected).value;
    assert r.keys == d.keys;
    SameData(r, d);
  }

  /** toPython sends a one-key Data holding a boolean as a guest mapping
      with that key and a guest bool. */
  lemma BooleanSent(key: string, b: bool, globals: set<string>, variant: Variant)
    ensures DataToPython(Singleton(key, VBoolean(b)), globals, variant)
      == Ok(GMapping([GuestEntry(StrKey(key), GBool(b))]))
  {
    var d := Singleton(key, VBoolean(b));
    assert d.keys[0] == key && d.values[key] == VBoolean(b);
    assert SwitchToPython(d, key, globals, variant) == Ok(GBool(b));
    assert KeyToPython(d, key, globals, variant) == Ok(GBool(b));
    DataToPythonMeaning(d, globals, variant);
    var r := DataToPython(d, globals, variant).value;
    assert r.entries == [GuestEntry(StrKey(key), GBool(b))];
  }

  /** As written, toJava reads a guest mapping with one bool back as a
      one-key Data holding the INT64 1 or 0. */
  lemma BooleanReadAsInt(key: string, b: bool)
    ensures DataToJava(GMapping([GuestEntry(StrKey(key), GBool(b))]), AsWritten)
      == Ok(Singleton(key, VInt64(if b then 1 else 0)))
  {
    var g := GMapping([GuestEntry(StrKey(key), GBool(b))]);
    var es := Converted(g, AsWritten);
    assert es[0] == (StrKey(key), Ok(VInt64(if b then 1 else 0)));
    assert PutAll(es, 0) == Ok(EmptyData);
  }

  /** As written, a boolean does not survive the crossing: toPython sends a
      guest bool, the int test of toJava catches it, and the key comes back
      as the INT64 1 or 0. */
  lemma BooleanComesBackAsInt(key: string, b: bool, globals: set<string>)
    ensures var d := Singleton(key, VBoolean(b));
      && DataToPython(d, globals, AsWritten).Ok?
      && DataToJava(DataToPython(d, globals, AsWritten).value, AsWritten)
         == Ok(Singleton(key, VInt64(if b then 1 else 0)))
  {
    BooleanSent(key, b, globals, AsWritten);
    BooleanReadAsInt(key, b);
  }

  /** With the bool test first, the bool branch reads the boolean back. */
  lemma BooleanComesBackCorrected(key: string, b: bool, globals: set<string>)
    ensures var d := Singleton(key, VBoolean(b));
      && DataToPython(d, globals, Corrected).Ok?
      && DataToJava(DataToPython(d, globals, Corrected).value, Corrected) == Ok(d)
  {
    BooleanSent(key, b, globals, Corrected);
    BooleanReadBack(key, b);
  }

  /** With the bool test first, toJava reads a guest mapping with one bool
      back as a one-key Data holding that boolean. */
  lemma BooleanReadBack(key: string, b: bool)
    ensures DataToJava(GMapping([GuestEntry(StrKey(key), GBool(b))]), Corrected)
      == Ok(Singleton(key, VBoolean(b)))
  {
    var g := GMapping([GuestEntry(StrKey(key), GBool(b))]);
    var es := Converted(g, Corrected);
    assert es[0] == (StrKey(key), Ok(VBoolean(b)));
    assert PutAll(es, 0) == Ok(EmptyData);
  }
}

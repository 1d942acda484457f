/** The two converters between the serialized array format and numpy
    arrays: their canConvert gates, the IllegalArgument thrown when a gate
    is shut, the dtype tables in both directions and the shape copy. The
    guest array and its memory are opaque values; a numpy array is its dtype
    name, shape and bytes. */
module NumpyConverters {
  import opened Results
  import opened Strings
  import Values

  /** The array element types (NDArrayType); UTF8 is the one type whose
      elements are not of fixed width. */
  datatype NDArrayType =
    | DOUBLE | FLOAT | FLOAT16 | BFLOAT16
    | INT64 | INT32 | INT16 | INT8
    | UINT64 | UINT32 | UINT16 | UINT8
    | BOOL | UTF8

  function TypeName(t: NDArrayType): string {
    match t
    case DOUBLE => "DOUBLE"
    case FLOAT => "FLOAT"
    case FLOAT16 => "FLOAT16"
    case BFLOAT16 => "BFLOAT16"
    case INT64 => "INT64"
    case INT32 => "INT32"
    case INT16 => "INT16"
    case INT8 => "INT8"
    case UINT64 => "UINT64"
    case UINT32 => "UINT32"
    case UINT16 => "UINT16"
    case UINT8 => "UINT8"
    case BOOL => "BOOL"
    case UTF8 => "UTF8"
  }

  predicate IsFixedWidth(t: NDArrayType) {
    t != UTF8
  }

  /** NDArrayType.valueOf(n): exact, case-sensitive match on the names. */
  function TypeValueOf(n: string): (r: Result<NDArrayType>)
    ensures r.Ok? ==> TypeName(r.value) == n
    ensures r.Err? ==> r.error.kind == IllegalArgument && forall t :: TypeName(t) != n
  {
    if n == "DOUBLE" then Ok(DOUBLE)
    else if n == "FLOAT" then Ok(FLOAT)
    else if n == "FLOAT16" then Ok(FLOAT16)
    else if n == "BFLOAT16" then Ok(BFLOAT16)
    else if n == "INT64" then Ok(INT64)
    else if n == "INT32" then Ok(INT32)
    else if n == "INT16" then Ok(INT16)
    else if n == "INT8" then Ok(INT8)
    else if n == "UINT64" then Ok(UINT64)
    else if n == "UINT32" then Ok(UINT32)
    else if n == "UINT16" then Ok(UINT16)
    else if n == "UINT8" then Ok(UINT8)
    else if n == "BOOL" then Ok(BOOL)
    else if n == "UTF8" then Ok(UTF8)
    else Err(Exception(IllegalArgument, "No enum constant " + n))
  }

  /** A serialized array: element type, shape and the bytes of its buffer
      (direct or on the heap). */
  datatype SerializedNDArray = SerializedNDArray(dtype: NDArrayType, shape: seq<Values.int64>,
                                                 direct: bool, bytes: seq<bv8>)

  /** A numpy array as the converters see it: its dtype.name, its shape and
      the memory it views. */
  datatype NumpyArray = NumpyArray(dtypeName: string, shape: seq<Values.int64>, bytes: seq<bv8>)

  /** What an NDArray wraps, by class. */
  datatype Payload = Serialized(s: SerializedNDArray) | Numpy(n: NumpyArray) | OtherPayload(className: string)

  /** A requested target class, and a format, which names one. */
  datatype JavaClass = NumpyArrayClass | SerializedNDArrayClass | OtherClass(name: string)
  datatype NDArrayFormat = NDArrayFormat(formatType: JavaClass, text: string)

  function ClassText(c: JavaClass): string {
    match c
    case NumpyArrayClass => "class ai.konduit.serving.models.tensorflow.python.NumpyArray"
    case SerializedNDArrayClass => "class ai.konduit.serving.pipeline.impl.data.ndarray.SerializedNDArray"
    case OtherClass(n) => "class " + n
  }

  const ConvertFailure := "Unable to convert NDArray to "

  // ---- Serialized to numpy ----

  /** SerializedToNumpyArrayConverter.canConvert(from, Class). */
  predicate CanConvertToNumpy(from: Payload, to: JavaClass) {
    from.Serialized? && to == NumpyArrayClass
  }

  /** The format overload asks the class overload about formatType(). */
  predicate CanConvertToNumpyFormat(from: Payload, to: NDArrayFormat) {
    CanConvertToNumpy(from, to.formatType)
  }

  /** The numpy dtype string for an element type: variable-width types and
      BFLOAT16 are refused, FLOAT is "float32", any other type its name in
      lower case. */
  function NumpyDType(t: NDArrayType): (r: Result<string>)
    ensures r.Err? <==> !IsFixedWidth(t) || t == BFLOAT16
    ensures r.Err? ==> r.error.kind == UnsupportedOperation
    ensures t == FLOAT ==> r == Ok("float32")
    ensures IsFixedWidth(t) && t != BFLOAT16 && t != FLOAT ==> r == Ok(Lower(TypeName(t)))
  {
    if !IsFixedWidth(t) then Err(Exception(UnsupportedOperation, "Variable width data types are not supported yet."))
    else if t == BFLOAT16 then Err(Exception(UnsupportedOperation, "BFloat16 is not supported yet."))
    else if t == FLOAT then Ok("float32")
    else Ok(Lower(TypeName(t)))
  }

  /** numpy's canonical dtype.name for a dtype string: "double" is an alias
      of float64; the other strings produced above are canonical already. */
  function CanonicalDType(d: string): string {
    if d == "double" then "float64" else d
  }

  /** The private convert(SerializedNDArray): numpy.frombuffer over the whole
      buffer with the dtype, reshaped to the array's shape. The direct and
      heap paths give the same array. */
  function ToNumpy(from: SerializedNDArray): (r: Result<NumpyArray>)
    ensures r.Ok? <==> NumpyDType(from.dtype).Ok?
    ensures r.Ok? ==> r.value.shape == from.shape && r.value.bytes == from.bytes
    ensures r.Ok? ==> r.value.dtypeName == CanonicalDType(NumpyDType(from.dtype).value)
  {
    var d :- NumpyDType(from.dtype);
    Ok(NumpyArray(CanonicalDType(d), from.shape, from.bytes))
  }

  /** convert(from, Class): the gate, then the conversion. */
  function ConvertToNumpy(from: Payload, to: JavaClass): (r: Result<NumpyArray>)
    ensures !CanConvertToNumpy(from, to) ==> r == Err(Exception(IllegalArgument, ConvertFailure + ClassText(to)))
    ensures CanConvertToNumpy(from, to) ==> r == ToNumpy(from.s)
  {
    if !CanConvertToNumpy(from, to) then Err(Exception(IllegalArgument, ConvertFailure + ClassText(to)))
    else ToNumpy(from.s)
  }

  /** convert(from, NDArrayFormat). */
  function ConvertToNumpyFormat(from: Payload, to: NDArrayFormat): (r: Result<NumpyArray>)
    ensures !CanConvertToNumpyFormat(from, to) ==> r == Err(Exception(IllegalArgument, ConvertFailure + to.text))
    ensures CanConvertToNumpyFormat(from, to) ==> r == ToNumpy(from.s)
  {
    if !CanConvertToNumpyFormat(from, to) then Err(Exception(IllegalArgument, ConvertFailure + to.text))
    else ToNumpy(from.s)
  }

  // ---- Numpy to serialized ----

  /** NumpyArrayToSerializedConverter.canConvert(from, Class). */
  predicate CanConvertToSerialized(from: Payload, to: JavaClass) {
    from.Numpy? && to == SerializedNDArrayClass
  }

  predicate CanConvertToSerializedFormat(from: Payload, to: NDArrayFormat) {
    CanConvertToSerialized(from, to.formatType)
  }

  const UnsupportedNumpyType := "Unsupported numpy data type: "

  /** The reverse dtype table as written: "float64" and "float32" by name,
      anything else through the exact, upper-case valueOf. */
  function ElementType(npDtype: string): (r: Result<NDArrayType>)
    ensures npDtype == "float64" ==> r == Ok(DOUBLE)
    ensures npDtype == "float32" ==> r == Ok(FLOAT)
    ensures npDtype != "float64" && npDtype != "float32" ==>
      (r.Ok? <==> exists t :: TypeName(t) == npDtype)
    ensures npDtype != "float64" && npDtype != "float32" && r.Ok? ==> TypeName(r.value) == npDtype
    ensures r.Err? ==> r == Err(Exception(UnsupportedOperation, UnsupportedNumpyType + npDtype))
  {
    if npDtype == "float64" then Ok(DOUBLE)
    else if npDtype == "float32" then Ok(FLOAT)
    else
      var v := TypeValueOf(npDtype);
      if v.Ok? then assert TypeName(v.value) == npDtype; Ok(v.value)
      else Err(Exception(UnsupportedOperation, UnsupportedNumpyType + npDtype))
  }

  /** The same table with the name upper-cased before valueOf, so that
      numpy's lower-case names such as "int32" are found. */
  function ElementTypeCorrected(npDtype: string): (r: Result<NDArrayType>)
    ensures npDtype == "float64" ==> r == Ok(DOUBLE)
    ensures npDtype == "float32" ==> r == Ok(FLOAT)
    ensures npDtype != "float64" && npDtype != "float32" ==>
      (r.Ok? <==> exists t :: TypeName(t) == Upper(npDtype))
    ensures npDtype != "float64" && npDtype != "float32" && r.Ok? ==> TypeName(r.value) == Upper(npDtype)
    ensures r.Err? ==> r == Err(Exception(UnsupportedOperation, UnsupportedNumpyType + npDtype))
  {
    if npDtype == "float64" then Ok(DOUBLE)
    else if npDtype == "float32" then Ok(FLOAT)
    else
      var v := TypeValueOf(Upper(npDtype));
      if v.Ok? then assert TypeName(v.value) == Upper(npDtype); Ok(v.value)
      else Err(Exception(UnsupportedOperation, UnsupportedNumpyType + npDtype))
  }

  /** The serialized array convert(NumpyArray) produces: the element type,
      the shape, and a direct buffer over the numpy memory. */
  function FromNumpy(from: NumpyArray): (r: Result<SerializedNDArray>)
    ensures r.Ok? <==> ElementType(from.dtypeName).Ok?
    ensures r.Ok? ==> r.value.dtype == ElementType(from.dtypeName).value
    ensures r.Ok? ==> r.value.shape == from.shape && r.value.bytes == from.bytes && r.value.direct
  {
    var t :- ElementType(from.dtypeName);
    Ok(SerializedNDArray(t, from.shape, true, from.bytes))
  }

  function FromNumpyCorrected(from: NumpyArray): (r: Result<SerializedNDArray>)
    ensures r.Ok? <==> ElementTypeCorrected(from.dtypeName).Ok?
    ensures r.Ok? ==> r.value.dtype == ElementTypeCorrected(from.dtypeName).value
    ensures r.Ok? ==> r.value.shape == from.shape && r.value.bytes == from.bytes && r.value.direct
  {
    var t :- ElementTypeCorrected(from.dtypeName);
    Ok(SerializedNDArray(t, from.shape, true, from.bytes))
  }

  /** The shape copy: a new long[] filled from the numpy shape list. */
  method CopyShape(shapeList: seq<Values.int64>) returns (shape: array<Values.int64>)
    ensures fresh(shape)
    ensures shape[..] == shapeList
  {
    shape := new Values.int64[|shapeList|];
    var i := 0;
    while i < shape.Length
      invariant 0 <= i <= shape.Length
      invariant shape[..i] == shapeList[..i]
    {
      shape[i] := shapeList[i];
      i := i + 1;
    }
  }

  /** convert(NumpyArray): dtype first, then the shape copied element by
      element. */
  method ConvertNumpy(from: NumpyArray) returns (r: Result<SerializedNDArray>)
    ensures r == FromNumpy(from)
  {
    var t := ElementType(from.dtypeName);
    if t.Err? {
      return Err(t.error);
    }
    var shape := CopyShape(from.shape);
    return Ok(SerializedNDArray(t.value, shape[..], true, from.bytes));
  }

  /** convert(from, Class) on the reverse converter. */
  method ConvertToSerialized(from: Payload, to: JavaClass) returns (r: Result<SerializedNDArray>)
    ensures !CanConvertToSerialized(from, to) ==> r == Err(Exception(IllegalArgument, ConvertFailure + ClassText(to)))
    ensures CanConvertToSerialized(from, to) ==> r == FromNumpy(from.n)
  {
    if !CanConvertToSerialized(from, to) {
      return Err(Exception(IllegalArgument, ConvertFailure + ClassText(to)));
    }
    r := ConvertNumpy(from.n);
  }

  /** convert(from, NDArrayFormat) on the reverse converter. */
  method ConvertToSerializedFormat(from: Payload, to: NDArrayFormat) returns (r: Result<SerializedNDArray>)
    ensures !CanConvertToSerializedFormat(from, to) ==> r == Err(Exception(IllegalArgument, ConvertFailure + to.text))
    ensures CanConvertToSerializedFormat(from, to) ==> r == FromNumpy(from.n)
  {
    if !CanConvertToSerializedFormat(from, to) {
      return Err(Exception(IllegalArgument, ConvertFailure + to.text));
    }
    r := ConvertNumpy(from.n);
  }

  // ---- The two tables against each other ----

  /** The two directions gate the same payloads apart: no payload is
      accepted by both converters for the same target. */
  lemma GatesDisjoint(from: Payload, to: JavaClass)
    ensures !(CanConvertToNumpy(from, to) && CanConvertToSerialized(from, to))
    ensures CanConvertToNumpy(from, to) ==> ConvertToNumpy(from, to).Ok? || from.s.dtype == UTF8 || from.s.dtype == BFLOAT16
  {
  }

  /** Lower- and upper-casing a literal, one character at a time. */
  lemma CaseLiteral(upper: string, lower: string)
    requires |upper| == |lower|
    requires forall i :: 0 <= i < |upper| ==> lower[i] == LowerChar(upper[i]) && upper[i] == UpperChar(lower[i])
    ensures Lower(upper) == lower && Upper(lower) == upper
  {
  }

  /** As written, the reverse table finds only float64 and float32: every
      other numpy name is lower case, so valueOf rejects it. Converting an
      INT32 array to numpy and back fails. */
  lemma Int32DoesNotComeBack(s: SerializedNDArray)
    requires s.dtype == INT32
    ensures ToNumpy(s).Ok? && ToNumpy(s).value.dtypeName == "int32"
    ensures FromNumpy(ToNumpy(s).value).Err?
  {
    CaseLiteral("INT32", "int32");
    LowerCaseUnnamed("int32");
  }

  /** No type name starts with a lower-case letter. */
  lemma LowerCaseUnnamed(n: string)
    requires |n| > 0 && 'a' <= n[0] <= 'z'
    ensures forall t :: TypeName(t) != n
  {
    forall t ensures TypeName(t) != n {
      assert TypeName(t)[0] != n[0];
    }
  }

  /** With the name upper-cased, every type numpy can hold comes back as
      itself, with its shape and bytes, in a direct buffer. */
  lemma RoundTripCorrected(s: SerializedNDArray)
    requires IsFixedWidth(s.dtype) && s.dtype != BFLOAT16
    ensures ToNumpy(s).Ok?
    ensures FromNumpyCorrected(ToNumpy(s).value) == Ok(s.(direct := true))
  {
    match s.dtype
    case DOUBLE => RoundTripDouble(s);
    case FLOAT => RoundTripFloat(s);
    case FLOAT16 => RoundTripFloat16(s);
    case INT64 => RoundTripInt64(s);
    case INT32 => RoundTripInt32(s);
    case INT16 => RoundTripInt16(s);
    case INT8 => RoundTripInt8(s);
    case UINT64 => RoundTripUint64(s);
    case UINT32 => RoundTripUint32(s);
    case UINT16 => RoundTripUint16(s);
    case UINT8 => RoundTripUint8(s);
    case BOOL => RoundTripBool(s);
  }

  // One element type per lemma keeps each proof small.
  lemma RoundTripDouble(s: SerializedNDArray)
    requires s.dtype == DOUBLE
    ensures ToNumpy(s).Ok? && FromNumpyCorrected(ToNumpy(s).value) == Ok(s.(direct := true))
  {
    CaseLiteral("DOUBLE", "double");
  }

  lemma RoundTripFloat(s: SerializedNDArray)
    requires s.dtype == FLOAT
    ensures ToNumpy(s).Ok? && FromNumpyCorrected(ToNumpy(s).value) == Ok(s.(direct := true))
  {
  }

  lemma RoundTripFloat16(s: SerializedNDArray)
    requires s.dtype == FLOAT16
    ensures ToNumpy(s).Ok? && FromNumpyCorrected(ToNumpy(s).value) == Ok(s.(direct := true))
  {
    CaseLiteral("FLOAT16", "float16");
    RoundTripByName(s, "float16");
  }

  lemma RoundTripInt64(s: SerializedNDArray)
    requires s.dtype == INT64
    ensures ToNumpy(s).Ok? && FromNumpyCorrected(ToNumpy(s).value) == Ok(s.(direct := true))
  {
    CaseLiteral("INT64", "int64");
    RoundTripByName(s, "int64");
  }

  lemma RoundTripInt32(s: SerializedNDArray)
    requires s.dtype == INT32
    ensures ToNumpy(s).Ok? && FromNumpyCorrected(ToNumpy(s).value) == Ok(s.(direct := true))
  {
    CaseLiteral("INT32", "int32");
    RoundTripByName(s, "int32");
  }

  lemma RoundTripInt16(s: SerializedNDArray)
    requires s.dtype == INT16
    ensures ToNumpy(s).Ok? && FromNumpyCorrected(ToNumpy(s).value) == Ok(s.(direct := true))
  {
    CaseLiteral("INT16", "int16");
    RoundTripByName(s, "int16");
  }

  lemma RoundTripInt8(s: SerializedNDArray)
    requires s.dtype == INT8
    ensures ToNumpy(s).Ok? && FromNumpyCorrected(ToNumpy(s).value) == Ok(s.(direct := true))
  {
    CaseLiteral("INT8", "int8");
    RoundTripByName(s, "int8");
  }

  lemma RoundTripUint64(s: SerializedNDArray)
    requires s.dtype == UINT64
    ensures ToNumpy(s).Ok? && FromNumpyCorrected(ToNumpy(s).value) == Ok(s.(direct := true))
  {
    CaseLiteral("UINT64", "uint64");
    RoundTripByName(s, "uint64");
  }

  lemma RoundTripUint32(s: SerializedNDArray)
    requires s.dtype == UINT32
    ensures ToNumpy(s).Ok? && FromNumpyCorrected(ToNumpy(s).value) == Ok(s.(direct := true))
  {
    CaseLiteral("UINT32", "uint32");
    RoundTripByName(s, "uint32");
  }

  lemma RoundTripUint16(s: SerializedNDArray)
    requires s.dtype == UINT16
    ensures ToNumpy(s).Ok? && FromNumpyCorrected(ToNumpy(s).value) == Ok(s.(direct := true))
  {
    CaseLiteral("UINT16", "uint16");
    RoundTripByName(s, "uint16");
  }

  lemma RoundTripUint8(s: SerializedNDArray)
    requires s.dtype == UINT8
    ensures ToNumpy(s).Ok? && FromNumpyCorrected(ToNumpy(s).value) == Ok(s.(direct := true))
  {
    CaseLiteral("UINT8", "uint8");
    RoundTripByName(s, "uint8");
  }

  lemma RoundTripBool(s: SerializedNDArray)
    requires s.dtype == BOOL
    ensures ToNumpy(s).Ok? && FromNumpyCorrected(ToNumpy(s).value) == Ok(s.(direct := true))
  {
    CaseLiteral("BOOL", "bool");
    RoundTripByName(s, "bool");
  }

  /** A type whose lower-case name numpy keeps and whose name upper-cases
      back comes back as itself. */
  lemma RoundTripByName(s: SerializedNDArray, lower: string)
    requires IsFixedWidth(s.dtype) && s.dtype != BFLOAT16 && s.dtype != FLOAT
    requires Lower(TypeName(s.dtype)) == lower && Upper(lower) == TypeName(s.dtype)
    requires lower != "double" && lower != "float64" && lower != "float32"
    ensures ToNumpy(s).Ok? && FromNumpyCorrected(ToNumpy(s).value) == Ok(s.(direct := true))
  {
    ValueOfName(s.dtype);
  }

  /** valueOf finds each type by its name. */
  lemma ValueOfName(t: NDArrayType)
    ensures TypeValueOf(TypeName(t)) == Ok(t)
  {
  }
}

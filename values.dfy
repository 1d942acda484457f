/** The typed value container ("Data"): a closed set of value kinds, the
    values themselves, and an insertion-ordered map from keys to values. */
module Values {
  import opened Results

  /** The closed tag set of value kinds. */
  datatype ValueType =
    | STRING | INT64 | DOUBLE | BOOLEAN | BYTES | IMAGE | NDARRAY | BOUNDING_BOX | DATA | LIST

  /** Enum.name() / toString() of a ValueType. */
  function ValueTypeName(t: ValueType): string {
    match t
    case STRING => "STRING"
    case INT64 => "INT64"
    case DOUBLE => "DOUBLE"
    case BOOLEAN => "BOOLEAN"
    case BYTES => "BYTES"
    case IMAGE => "IMAGE"
    case NDARRAY => "NDARRAY"
    case BOUNDING_BOX => "BOUNDING_BOX"
    case DATA => "DATA"
    case LIST => "LIST"
  }

  const MinLong: int := -0x8000_0000_0000_0000
  const MaxLong: int := 0x7FFF_FFFF_FFFF_FFFF

  /** A Java long. */
  type int64 = x: int | MinLong <= x <= MaxLong

  /** A Java double, kept as its IEEE-754 bit pattern.  Distinct NaN
      patterns are distinct values here; Double.equals identifies them
      (DataUtils.DoubleEquals). */
  datatype Float = Float(bits: bv64)

  /** Opaque handles for image and array payloads, whose pixel and element
      data live outside the model. */
  datatype Image = Image(id: nat)
  datatype NDArray = NDArray(id: nat)

  /** Centre, size, and the optional label and probability of a detection. */
  datatype BoundingBox = BoundingBox(
    cx: Float, cy: Float, height: Float, width: Float,
    classLabel: Option<string>, probability: Option<Float>)

  /** One typed value; exactly one payload is live, chosen by the constructor. */
  datatype Value =
    | VString(s: string)
    | VInt64(n: int64)
    | VDouble(f: Float)
    | VBoolean(b: bool)
    | VBytes(bytes: seq<bv8>)
    | VImage(img: Image)
    | VNDArray(arr: NDArray)
    | VBoundingBox(box: BoundingBox)
    | VData(data: Data)
    | VList(elemType: ValueType, items: seq<Value>)

  function TypeOf(v: Value): ValueType {
    match v
    case VString(_) => STRING
    case VInt64(_) => INT64
    case VDouble(_) => DOUBLE
    case VBoolean(_) => BOOLEAN
    case VBytes(_) => BYTES
    case VImage(_) => IMAGE
    case VNDArray(_) => NDARRAY
    case VBoundingBox(_) => BOUNDING_BOX
    case VData(_) => DATA
    case VList(_, _) => LIST
  }

  /** The container: keys() in insertion order, and the value stored under
      each key. */
  datatype Data = Data(keys: seq<string>, values: map<string, Value>) {

    /** Keys are unique and are exactly the keys that hold a value. */
    ghost predicate Valid() {
      && (forall i, j :: 0 <= i < j < |keys| ==> keys[i] != keys[j])
      && (forall k :: k in values <==> k in keys)
    }

    /** type(key): fails with ValueNotFound when the key is absent. */
    function Type(key: string): (r: Result<ValueType>)
      ensures r.Ok? <==> key in values
      ensures r.Ok? ==> r.value == TypeOf(values[key])
    {
      if key in values then Ok(TypeOf(values[key]))
      else Err(Exception(ValueNotFound, "No value found for key: " + key))
    }

    /** listType(key): the element type of a LIST value. */
    function ListType(key: string): (r: Result<ValueType>)
      ensures r.Ok? <==> key in values && values[key].VList?
      ensures r.Ok? ==> r.value == values[key].elemType
    {
      if key !in values then Err(Exception(ValueNotFound, "No value found for key: " + key))
      else if !values[key].VList? then Err(Exception(TypeMismatch, "Key " + key + " is not a list"))
      else Ok(values[key].elemType)
    }

    /** getData(key): only a DATA value can be read through this accessor. */
    function GetData(key: string): (r: Result<Data>)
      ensures r.Ok? <==> key in values && values[key].VData?
      ensures r.Ok? ==> VData(r.value) == values[key]
    {
      if key !in values then Err(Exception(ValueNotFound, "No value found for key: " + key))
      else if !values[key].VData? then Err(Exception(TypeMismatch, "Key " + key + " is not DATA"))
      else Ok(values[key].data)
    }

    /** put(key, value): a new key goes to the end of keys(); an existing key
        keeps its position and takes the new value and type. */
    function Put(key: string, v: Value): (d: Data)
      ensures Valid() ==> d.Valid()
      ensures d.values == values[key := v]
      ensures key in keys ==> d.keys == keys
      ensures key !in keys ==> d.keys == keys + [key]
    {
      if key in keys then Data(keys, values[key := v]) else Data(keys + [key], values[key := v])
    }
  }

  const EmptyData: Data := Data([], map[])

  /** Data.singleton(key, value). */
  function Singleton(key: string, v: Value): (d: Data)
    ensures d.Valid() && d.keys == [key] && d.values == map[key := v]
  {
    EmptyData.Put(key, v)
  }

  /** Putting the same key twice: the key stays where it was first inserted
      and holds the second value, whatever its type. */
  lemma PutOverwriteRetypes(d: Data, key: string, v1: Value, v2: Value)
    requires d.Valid()
    ensures d.Put(key, v1).Put(key, v2).keys == d.Put(key, v1).keys
    ensures d.Put(key, v1).Put(key, v2).Type(key) == Ok(TypeOf(v2))
  {
  }

  /** A valid Data is determined by its keys and the value under each. */
  lemma SameData(a: Data, b: Data)
    requires a.Valid() && b.Valid() && a.keys == b.keys
    requires forall i :: 0 <= i < |a.keys| ==> a.values[a.keys[i]] == b.values[a.keys[i]]
    ensures a == b
  {
    forall k | k in a.values ensures k in b.values && a.values[k] == b.values[k] {
      var i :| 0 <= i < |a.keys| && a.keys[i] == k;
    }
  }
}

/** Mutable single-value wrappers: each holds one payload whose type tag is
    fixed by the wrapper class, whatever the payload is set to. */
module ValueWrappers {
  import opened Results
  import opened Values

  /** IntValue: a long payload tagged INT64. */
  class IntValue {
    var value: int64

    /** The all-arguments constructor. */
    constructor (value: int64)
      ensures this.value == value
    {
      this.value := value;
    }

    /** type(): reads no field, so no set() can change it. */
    function Type(): ValueType {
      INT64
    }

    /** The tagged value this wrapper stands for; its tag is type(). */
    function AsValue(): (v: Value)
      reads this
      ensures TypeOf(v) == Type()
      ensures v.VInt64? && v.n == Get()
    {
      VInt64(value)
    }

    /** get(). */
    function Get(): int64
      reads this
    {
      value
    }

    /** set(v): get() answers v afterwards; type() is the same. */
    method Set(v: int64)
      modifies this
      ensures Get() == v
      ensures AsValue() == VInt64(v)
    {
      value := v;
    }
  }

  /** ImageValue: an image payload, possibly null, tagged IMAGE. */
  class ImageValue {
    var image: Option<Image>

    constructor (image: Option<Image>)
      ensures this.image == image
    {
      this.image := image;
    }

    function Type(): ValueType {
      IMAGE
    }

    /** The tagged value this wrapper stands for when it holds an image. */
    function AsValue(): (v: Option<Value>)
      reads this
      ensures v.Some? <==> Get().Some?
      ensures v.Some? ==> TypeOf(v.value) == Type() && v.value.img == Get().value
    {
      if image.Some? then Some(VImage(image.value)) else None
    }

    function Get(): Option<Image>
      reads this
    {
      image
    }

    method Set(img: Option<Image>)
      modifies this
      ensures Get() == img
      ensures img.Some? ==> AsValue() == Some(VImage(img.value))
    {
      image := img;
    }
  }
}

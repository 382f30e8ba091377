/** The opaque identities the request core handles: Java classes, models, loader
    factories, transformations, downsamplers, targets, presenters and contexts.
    Only their identity (and, for a class, its name) matters to the core. */
module Identities {

  /** A Java reference that may be `null`. */
  datatype Option<+T> = None | Some(value: T)

  function Get<K, V>(m: map<K, V>, k: K): (r: Option<V>)
    ensures r.Some? <==> k in m
    ensures r.Some? ==> r.value == m[k]
  {
    if k in m then Some(m[k]) else None
  }

  /** A `java.lang.Class`, known by its binary name. */
  datatype ClassRef = ClassRef(name: string)

  /** `Class.toString()` for a class (as opposed to an interface). */
  function ClassToString(c: ClassRef): string {
    "class " + c.name
  }

  /** A model object: its runtime class and an opaque value. */
  datatype ModelValue = ModelValue(cls: ClassRef, value: string)

  /** A `ModelLoaderFactory`: its identity and the class its `loaderClass()` reports. */
  datatype Factory = Factory(id: nat, loaderClass: ClassRef)

  /** A `Transformation`, known by the string its `getId()` returns. */
  datatype Transformation = Transformation(id: string)

  /** The three built-in transformations. Their `getId()` strings are outside this
      model; they are taken to be these three distinct constants. */
  const NONE: Transformation := Transformation("NONE")
  const CENTER_CROP: Transformation := Transformation("CENTER_CROP")
  const FIT_CENTER: Transformation := Transformation("FIT_CENTER")

  /** A `TransformationLoader`, known by its runtime class. */
  datatype TransformationLoader = TransformationLoader(cls: ClassRef)

  /** The anonymous loader `Request.getFinalTransformationLoader` creates to wrap a
      plain transformation. It is the second anonymous class in `Request`, after the
      `ImageReadyCallback` of `buildImagePresenter`. */
  const WRAPPING_LOADER: TransformationLoader :=
    TransformationLoader(ClassRef("com.bumptech.glide.Glide$Request$2"))

  /** The two downsamplers the request core chooses between. */
  datatype Downsampler = AtLeast | NoDownsampling {
    /** `Downsampler.getId()`; the strings are outside this model, taken distinct. */
    function Id(): (r: string)
      ensures (r == "AT_LEAST") <==> AtLeast?
    {
      match this
      case AtLeast => "AT_LEAST"
      case NoDownsampling => "NONE"
    }
  }

  /** Distinct downsamplers have distinct ids, so a fingerprint tells them apart. */
  lemma DownsamplerIdInjective(a: Downsampler, b: Downsampler)
    ensures a.Id() == b.Id() <==> a == b
  {
  }

  /** A display target (an `ImageView` wrapped in an `ImageViewTarget`, or any `Target`). */
  type TargetId = nat

  /** An `ImagePresenter` object. */
  type PresenterId = nat

  /** An Android `Context`. */
  type ContextId = nat

  /** An `ImageManager` object. */
  datatype ImageManager = ImageManager(id: nat, context: ContextId)

  /** `ViewGroup.LayoutParams.WRAP_CONTENT`. */
  const WRAP_CONTENT: int := -2

  /** The width and height fields of a view's `ViewGroup.LayoutParams`. */
  datatype LayoutParams = LayoutParams(width: int, height: int)

  /** An `ImageView`: its identity (also its target's identity), its context and its
      layout parameters, which may be `null`. */
  datatype ImageView = ImageView(id: TargetId, context: ContextId, layout: Option<LayoutParams>)

  /** A value returned, or an exception thrown. */
  datatype Result<+T> = Returned(value: T) | Failed(failure: Failure)

  /** The exceptions the request core throws. */
  datatype Failure =
    | NullModel          // IllegalArgumentException "Model can't be null"
    | NoFactoryForModel  // IllegalArgumentException "No ModelLoaderFactory registered ..."
    | NullPointer        // a NullPointerException from dereferencing a null field
}

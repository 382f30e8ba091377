/** The configurable part of a `Glide.Request` draft as a value, the effect of each
    configuration method on it, and how the draft's fingerprint is computed. The
    `Request` class in module GlideModel is tied to these functions. */
module RequestOptions {
  import opened JavaInt
  import opened Identities
  import opened Fingerprint

  /** The fields the configuration methods write. `transformation` and
      `transformationLoader` may be `null`. */
  datatype Options = Options(
    transformation: Option<Transformation>,
    downsampler: Downsampler,
    transformationLoader: Option<TransformationLoader>,
    animationId: Int32,
    placeholderId: Int32,
    errorId: Int32)

  /** The value of an optional resource id that has not been set. */
  const UNSET: Int32 := -1

  /** The field initialisers of a new `Request`. */
  const DEFAULTS: Options := Options(Some(NONE), AtLeast, None, UNSET, UNSET, UNSET)

  /** One call of a configuration method. `transform` accepts `null` in both its forms. */
  datatype Setter =
    | CenterCrop
    | FitCenter
    | Approximate
    | AsIs
    | Transform(transformation: Option<Transformation>)
    | TransformWith(loader: Option<TransformationLoader>)
    | Animate(animationId: Int32)
    | Placeholder(placeholderId: Int32)
    | Error(errorId: Int32)
  {
    /** The six methods that replace the resize style. */
    predicate IsResize() {
      !(Animate? || Placeholder? || Error?)
    }
  }

  /** The resize style: the triple every resize method overwrites as a whole. */
  datatype Resize = Resize(
    transformation: Option<Transformation>,
    downsampler: Downsampler,
    transformationLoader: Option<TransformationLoader>)

  function ResizeOf(o: Options): Resize {
    Resize(o.transformation, o.downsampler, o.transformationLoader)
  }

  /** The effect of one configuration method on the draft. */
  function Apply(o: Options, s: Setter): Options {
    match s
    case CenterCrop => o.(transformation := Some(CENTER_CROP), downsampler := AtLeast, transformationLoader := None)
    case FitCenter => o.(transformation := Some(FIT_CENTER), downsampler := AtLeast, transformationLoader := None)
    case Approximate => o.(transformation := Some(NONE), downsampler := AtLeast, transformationLoader := None)
    case AsIs => o.(transformation := Some(NONE), downsampler := NoDownsampling, transformationLoader := None)
    case Transform(t) => o.(transformation := t, downsampler := AtLeast, transformationLoader := None)
    case TransformWith(l) => o.(transformationLoader := l, transformation := None, downsampler := AtLeast)
    case Animate(id) => o.(animationId := id)
    case Placeholder(id) => o.(placeholderId := id)
    case Error(id) => o.(errorId := id)
  }

  /** The fixed resize style each resize method installs, stated as a table. */
  function Installs(s: Setter): Resize
    requires s.IsResize()
  {
    match s
    case CenterCrop => Resize(Some(CENTER_CROP), AtLeast, None)
    case FitCenter => Resize(Some(FIT_CENTER), AtLeast, None)
    case Approximate => Resize(Some(NONE), AtLeast, None)
    case AsIs => Resize(Some(NONE), NoDownsampling, None)
    case Transform(t) => Resize(t, AtLeast, None)
    case TransformWith(l) => Resize(None, AtLeast, l)
  }

  /** Each configuration method writes only its own fields: a resize method replaces
      the resize style by a value that does not depend on the draft and keeps the three
      ids; an id method changes its own id and nothing else. */
  lemma ApplyWritesOwnFields(o: Options, s: Setter)
    ensures var r := Apply(o, s);
      && (s.IsResize() ==> ResizeOf(r) == Installs(s))
      && (s.IsResize() ==> (r.animationId, r.placeholderId, r.errorId) == (o.animationId, o.placeholderId, o.errorId))
      && (!s.IsResize() ==> ResizeOf(r) == ResizeOf(o))
      && (r.animationId == if s.Animate? then s.animationId else o.animationId)
      && (r.placeholderId == if s.Placeholder? then s.placeholderId else o.placeholderId)
      && (r.errorId == if s.Error? then s.errorId else o.errorId)
  {
  }

  /** A chain of configuration calls, applied left to right. */
  function ApplyAll(o: Options, ss: seq<Setter>): Options {
    if |ss| == 0 then o else Apply(ApplyAll(o, ss[..|ss| - 1]), ss[|ss| - 1])
  }

  /** The fields of the draft, for saying which setter writes which. */
  datatype Field = ResizeField | AnimationField | PlaceholderField | ErrorField

  predicate Writes(s: Setter, f: Field) {
    match f
    case ResizeField => s.IsResize()
    case AnimationField => s.Animate?
    case PlaceholderField => s.Placeholder?
    case ErrorField => s.Error?
  }

  /** The last call in `ss` that writes `f`, if any. */
  function LastWriter(ss: seq<Setter>, f: Field): (r: Option<Setter>)
    ensures r.Some? ==> r.value in ss && Writes(r.value, f)
    ensures r.None? ==> forall i :: 0 <= i < |ss| ==> !Writes(ss[i], f)
  {
    if |ss| == 0 then None
    else if Writes(ss[|ss| - 1], f) then Some(ss[|ss| - 1])
    else LastWriter(ss[..|ss| - 1], f)
  }

  /** Last write wins, field by field: every field holds what the last call writing it
      wrote, or its value before the chain when no call wrote it. */
  function LastWins(o: Options, ss: seq<Setter>): Options {
    var rz := LastWriter(ss, ResizeField);
    var an := LastWriter(ss, AnimationField);
    var ph := LastWriter(ss, PlaceholderField);
    var er := LastWriter(ss, ErrorField);
    var resize := if rz.Some? then Installs(rz.value) else ResizeOf(o);
    Options(resize.transformation, resize.downsampler, resize.transformationLoader,
            if an.Some? then an.value.animationId else o.animationId,
            if ph.Some? then ph.value.placeholderId else o.placeholderId,
            if er.Some? then er.value.errorId else o.errorId)
  }

  /** Applying a chain of configuration calls leaves exactly the last writes. */
  lemma {:induction false} ApplyAllIsLastWins(o: Options, ss: seq<Setter>)
    ensures ApplyAll(o, ss) == LastWins(o, ss)
  {
    if |ss| > 0 {
      ApplyAllIsLastWins(o, ss[..|ss| - 1]);
    }
  }

  /** A resize call followed only by id calls determines the resize style, whatever
      came before it. */
  lemma {:induction false} LastResizeWins(o: Options, pre: seq<Setter>, s: Setter, post: seq<Setter>)
    requires s.IsResize()
    requires forall i :: 0 <= i < |post| ==> !post[i].IsResize()
    ensures ResizeOf(ApplyAll(o, pre + [s] + post)) == Installs(s)
  {
    var ss := pre + [s] + post;
    ApplyAllIsLastWins(o, ss);
    LastWriterSkips(pre + [s], post, ResizeField);
    assert (pre + [s])[..|pre + [s]| - 1] == pre;
  }

  lemma {:induction false} LastWriterSkips(a: seq<Setter>, b: seq<Setter>, f: Field)
    requires forall i :: 0 <= i < |b| ==> !Writes(b[i], f)
    ensures LastWriter(a + b, f) == LastWriter(a, f)
  {
    if |b| > 0 {
      var ab := a + b;
      assert ab[..|ab| - 1] == a + b[..|b| - 1];
      assert !Writes(ab[|ab| - 1], f);
      LastWriterSkips(a, b[..|b| - 1], f);
    } else {
      assert a + b == a;
    }
  }

  /** `getFinalTransformationId`: the loader's class string when a loader is set,
      otherwise `transformation.getId()`; `None` stands for the NullPointerException
      thrown when both are `null`. */
  function FinalTransformationId(o: Options): Option<string> {
    match o.transformationLoader
    case Some(l) => Some(ClassToString(l.cls))
    case None =>
      match o.transformation
      case Some(t) => Some(t.id)
      case None => None
  }

  /** `getFinalTransformationLoader()`: the loader when one is set, otherwise the
      anonymous loader that hands out the draft's transformation. */
  function FinalLoader(o: Options): TransformationLoader {
    match o.transformationLoader
    case Some(l) => l
    case None => WRAPPING_LOADER
  }

  /** The draft after `buildImagePresenter`, which stores the final loader back into
      the draft's `transformationLoader` field. */
  function AfterBuild(o: Options): Options {
    o.(transformationLoader := Some(FinalLoader(o)))
  }

  /** Building a presenter changes the draft's fingerprint when the draft had no
      loader, since the fingerprint then names the wrapping loader's class instead of
      the transformation's id; a second build changes nothing more. So a `Request`
      put into the same target twice rebuilds its presenter the second time. */
  lemma AfterBuildChangesFingerprint(model: ModelValue, factory: Factory, o: Options)
    requires o.transformationLoader.None? && o.transformation.Some?
    requires o.transformation.value.id != ClassToString(WRAPPING_LOADER.cls)
    ensures MetadataOf(model, factory, o).Some?
    ensures MetadataOf(model, factory, AfterBuild(o)).Some?
    ensures !MetadataOf(model, factory, o).value.Equals(MetadataOf(model, factory, AfterBuild(o)))
    ensures AfterBuild(AfterBuild(o)) == AfterBuild(o)
  {
  }

  /** `new Metadata(request)`: the fingerprint of a draft for a model and its loader
      factory, or `None` when computing it throws. */
  function MetadataOf(model: ModelValue, factory: Factory, o: Options): Option<Metadata> {
    match FinalTransformationId(o)
    case None => None
    case Some(tid) =>
      Some(Metadata(model.cls, factory.loaderClass, o.animationId, o.placeholderId,
                    o.errorId, o.downsampler.Id(), tid))
  }

  /** Which drafts have a fingerprint, and what it holds: the model's class, the
      factory's loader class, the three ids, the id of the effective downsampler, and
      the loader's class string when a loader is set, else the transformation's id. */
  lemma MetadataOfFields(model: ModelValue, factory: Factory, o: Options)
    ensures MetadataOf(model, factory, o).None? <==> o.transformation.None? && o.transformationLoader.None?
    ensures MetadataOf(model, factory, o).Some? ==>
      var m := MetadataOf(model, factory, o).value;
      && m.modelClass == model.cls && m.modelLoaderClass == factory.loaderClass
      && m.animationId == o.animationId && m.placeholderId == o.placeholderId
      && m.errorId == o.errorId && m.downsamplerId == o.downsampler.Id()
      && m.transformationId == if o.transformationLoader.Some?
                               then ClassToString(o.transformationLoader.value.cls)
                               else o.transformation.value.id
  {
  }

  /** Two drafts have equal fingerprints exactly when they agree on the model's class,
      the loader class, the three ids, the downsampler and the transformation id; the
      model value itself plays no part. */
  lemma {:induction false} MetadataEqualIff(m1: ModelValue, f1: Factory, o1: Options,
                                             m2: ModelValue, f2: Factory, o2: Options)
    requires MetadataOf(m1, f1, o1).Some? && MetadataOf(m2, f2, o2).Some?
    ensures MetadataOf(m1, f1, o1).value.Equals(MetadataOf(m2, f2, o2)) <==>
      && m1.cls == m2.cls && f1.loaderClass == f2.loaderClass
      && o1.animationId == o2.animationId && o1.placeholderId == o2.placeholderId
      && o1.errorId == o2.errorId && o1.downsampler == o2.downsampler
      && FinalTransformationId(o1) == FinalTransformationId(o2)
  {
    DownsamplerIdInjective(o1.downsampler, o2.downsampler);
  }

  /** A draft always has a fingerprint after any resize method other than
      `transform(null)` in either form. */
  lemma ResizeGivesMetadata(model: ModelValue, factory: Factory, o: Options, s: Setter)
    requires s.IsResize() && s != Transform(None) && s != TransformWith(None)
    ensures MetadataOf(model, factory, Apply(o, s)).Some?
  {
  }

  /** `layoutParams != null && (width == WRAP_CONTENT || height == WRAP_CONTENT)`. */
  predicate WrapsContent(layout: Option<LayoutParams>) {
    match layout
    case None => false
    case Some(p) => p.width == WRAP_CONTENT || p.height == WRAP_CONTENT
  }

  /** The draft `into(ImageView)` fingerprints: the downsampler is forced to none when
      the view's size follows its content. */
  function ForLayout(o: Options, layout: Option<LayoutParams>): (r: Options)
    ensures r.downsampler == if WrapsContent(layout) then NoDownsampling else o.downsampler
    ensures r == o.(downsampler := r.downsampler)
  {
    if WrapsContent(layout) then o.(downsampler := NoDownsampling) else o
  }

  /** The fingerprint reflects the effective downsampler: the same draft put into a
      wrap-content view and into a fixed-size view gets two different fingerprints
      whenever the draft asked for downsampling. */
  lemma WrapContentChangesFingerprint(model: ModelValue, factory: Factory, o: Options,
                                      wrap: LayoutParams, fixed: LayoutParams)
    requires MetadataOf(model, factory, o).Some?
    requires o.downsampler == AtLeast
    requires WrapsContent(Some(wrap)) && !WrapsContent(Some(fixed))
    ensures MetadataOf(model, factory, ForLayout(o, Some(wrap))).Some?
    ensures !MetadataOf(model, factory, ForLayout(o, Some(wrap))).value.Equals(
              MetadataOf(model, factory, ForLayout(o, Some(fixed))))
  {
    DownsamplerIdInjective(AtLeast, NoDownsampling);
  }
}

/** The stateful objects of `Glide.java`: the `Glide` singleton (image manager slot,
    loader-factory registry, metadata tracker) together with the presenter slot of
    every target and the state of every presenter; the `Request` builder; and
    `ContextRequest`. Every state-changing method is tied to the value-level functions
    of modules RequestOptions, Lifecycle, LoaderRegistry and Attach, where the
    properties are proved. The singleton `GLIDE` is passed explicitly as `glide`. */
module GlideModel {
  import opened JavaInt
  import opened Identities
  import opened Fingerprint
  import opened RequestOptions
  import opened Lifecycle
  import LoaderRegistry
  import Attach

  /** `GenericLoaderFactory`, reduced to the map it keeps and the previous-value
      contract of its `register`. */
  class GenericLoaderFactory {
    var factories: map<ClassRef, Factory>

    constructor()
      ensures factories == map[]
    {
      factories := map[];
    }

    method Register(clazz: ClassRef, factory: Factory) returns (removed: Option<Factory>)
      modifies this
      ensures (factories, removed) == LoaderRegistry.Put(old(factories), clazz, factory)
    {
      removed := Get(factories, clazz);
      factories := factories[clazz := factory];
    }

    /** `getFactory(clazz)`: the factory registered for exactly this class, if any. */
    function GetFactory(clazz: ClassRef): (r: Option<Factory>)
      reads this
      ensures r.Some? <==> clazz in factories
      ensures r.Some? ==> r.value == factories[clazz]
    {
      Get(factories, clazz)
    }
  }

  class Glide {
    var imageManager: Option<ImageManager>
    var managersBuilt: nat                       // image managers built so far
    const loaderFactory: GenericLoaderFactory
    var tornDown: seq<Factory>                   // `teardown()` calls, oldest first

    var tracker: map<TargetId, Metadata>         // `metadataTracker`
    var slots: map<TargetId, PresenterId>        // each target's presenter
    var cleared: set<PresenterId>                // presenters whose `clear()` ran
    var built: nat                               // presenters built so far
    ghost var origin: map<PresenterId, Origin>   // what each presenter was built for
    var events: seq<Event>                       // presenter calls, oldest first

    /** The tracking state as a value. */
    ghost function Tracking(): Tracking
      reads this
    {
      Lifecycle.Tracking(tracker, slots, cleared, built, origin, events)
    }

    /** The registry state as a value. */
    function Registry(): LoaderRegistry.Registry
      reads this, loaderFactory
    {
      LoaderRegistry.Registry(loaderFactory.factories, tornDown)
    }

    ghost predicate Valid()
      reads this
    {
      Lifecycle.Valid(Tracking())
    }

    /** `new Glide()`: registers the five default factories; `volleyPresent` is the
        outcome of the `Class.forName` probe for Volley's URL loader factory. */
    constructor(volleyPresent: bool)
      ensures Valid() && Tracking() == EMPTY
      ensures Registry() == LoaderRegistry.Initial(volleyPresent)
      ensures imageManager == None && managersBuilt == 0
      ensures fresh(loaderFactory)
    {
      imageManager := None;
      managersBuilt := 0;
      tracker, slots, cleared, built, origin, events := map[], map[], {}, 0, map[], [];
      tornDown := [];
      var registry := new GenericLoaderFactory();
      loaderFactory := registry;
      new;
      var removed := registry.Register(LoaderRegistry.FILE, LoaderRegistry.FILE_FACTORY);
      removed := registry.Register(LoaderRegistry.INTEGER, LoaderRegistry.RESOURCE_FACTORY);
      removed := registry.Register(LoaderRegistry.STRING, LoaderRegistry.STRING_FACTORY);
      removed := registry.Register(LoaderRegistry.URI, LoaderRegistry.URI_FACTORY);
      if volleyPresent {
        removed := registry.Register(LoaderRegistry.URL, LoaderRegistry.VOLLEY_FACTORY);
      } else {
        removed := registry.Register(LoaderRegistry.URL, LoaderRegistry.ERROR_URL_FACTORY);
      }
    }

    // -------------------------------------------------------------------------
    // image manager

    /** `isImageManagerSet()`. */
    predicate IsImageManagerSet()
      reads this
    {
      imageManager.Some?
    }

    /** `setImageManager(ImageManager)`; `null` unsets it. */
    method SetImageManager(manager: Option<ImageManager>)
      modifies this`imageManager
      ensures imageManager == manager
      ensures IsImageManagerSet() <==> manager.Some?
    {
      imageManager := manager;
    }

    /** `setImageManager(new ImageManager.Builder(context))`: builds a new manager. */
    method SetImageManagerFor(context: ContextId)
      modifies this`imageManager, this`managersBuilt
      ensures imageManager == Some(ImageManager(old(managersBuilt), context))
      ensures managersBuilt == old(managersBuilt) + 1
    {
      var manager := ImageManager(managersBuilt, context);
      managersBuilt := managersBuilt + 1;
      SetImageManager(Some(manager));
    }

    /** `getImageManager(context)`: the current manager, built lazily on first use. */
    method GetImageManager(context: ContextId) returns (manager: ImageManager)
      modifies this`imageManager, this`managersBuilt
      ensures IsImageManagerSet() && imageManager == Some(manager)
      ensures old(IsImageManagerSet()) ==> manager == old(imageManager).value
                                           && managersBuilt == old(managersBuilt)
      ensures !old(IsImageManagerSet()) ==> manager == ImageManager(old(managersBuilt), context)
                                            && managersBuilt == old(managersBuilt) + 1
    {
      if !IsImageManagerSet() {
        SetImageManagerFor(context);
      }
      manager := imageManager.value;
    }

    // -------------------------------------------------------------------------
    // loader factories

    /** `register(clazz, factory)`: install the factory and tear down the one it
        displaced, if any. */
    method Register(clazz: ClassRef, factory: Factory)
      modifies loaderFactory, this`tornDown
      ensures Registry() == LoaderRegistry.Register(old(Registry()), clazz, factory)
    {
      var removed := loaderFactory.Register(clazz, factory);
      if removed.Some? {
        Teardown(removed.value);
      }
    }

    /** `factory.teardown()`. */
    method Teardown(factory: Factory)
      modifies this`tornDown
      ensures tornDown == old(tornDown) + [factory]
    {
      tornDown := tornDown + [factory];
    }

    /** The private `getFactory(model)`: the factory registered for the model's class. */
    function GetFactory(model: ModelValue): (r: Option<Factory>)
      reads this, loaderFactory
      ensures r == Get(Registry().factories, model.cls)
    {
      loaderFactory.GetFactory(model.cls)
    }

    // -------------------------------------------------------------------------
    // targets and presenters

    /** `target.getImagePresenter()`. */
    function PresenterOf(target: TargetId): (r: Option<PresenterId>)
      reads this
      ensures r == Get(slots, target)
    {
      if target in slots then Some(slots[target]) else None
    }

    /** `target.setImagePresenter(presenter)`. */
    method SetImagePresenter(target: TargetId, presenter: PresenterId)
      modifies this`slots
      ensures slots == old(slots)[target := presenter]
    {
      slots := slots[target := presenter];
    }

    /** `metadataTracker.put(target, metadata)`. */
    method Track(target: TargetId, metadata: Metadata)
      modifies this`tracker
      ensures tracker == old(tracker)[target := metadata]
    {
      tracker := tracker[target := metadata];
    }

    /** `presenter.clear()`. */
    method ClearPresenter(presenter: PresenterId)
      modifies this`cleared, this`events
      ensures Tracking() == Clear(old(Tracking()), presenter)
    {
      cleared := cleared + {presenter};
      events := events + [Cleared(presenter)];
    }

    /** `new ImagePresenter.Builder<T>()...build()` for `target`: a presenter that did
        not exist before. `fingerprint` only feeds the bookkeeping in `origin`. */
    method NewPresenter(target: TargetId, ghost fingerprint: Metadata) returns (presenter: PresenterId)
      modifies this`built, this`origin, this`events
      ensures presenter == old(built)
      ensures Tracking() == Build(old(Tracking()), target, fingerprint)
    {
      presenter := built;
      built := built + 1;
      origin := origin[presenter := Origin(target, fingerprint)];
      events := events + [Built(presenter, target)];
    }

    /** `presenter.setModel(model)`. */
    method SetModel(presenter: PresenterId, model: ModelValue)
      modifies this`events
      ensures Tracking() == Lifecycle.SetModel(old(Tracking()), presenter, model)
    {
      events := events + [ModelSet(presenter, model)];
    }

    /** `Glide.cancel(target)`. */
    method Cancel(target: TargetId) returns (cancelled: bool)
      requires Valid()
      modifies this`cleared, this`events
      ensures Valid()
      ensures (Tracking(), cancelled) == Lifecycle.Cancel(old(Tracking()), target)
    {
      var current := PresenterOf(target);
      cancelled := current.Some?;
      if cancelled {
        ClearPresenter(current.value);
      }
      CancelKeepsValid(old(Tracking()), target);
    }

    /** `Glide.cancel(imageView)`: cancel for the view's target. */
    method CancelView(view: ImageView) returns (cancelled: bool)
      requires Valid()
      modifies this`cleared, this`events
      ensures Valid()
      ensures (Tracking(), cancelled) == Lifecycle.Cancel(old(Tracking()), view.id)
    {
      cancelled := Cancel(view.id);
    }
  }

  /** `new Request(model, factory)` or the exception it throws. */
  datatype Created = Created(request: Request) | Threw(failure: Failure)

  class Request {
    var context: Option<ContextId>
    var target: Option<TargetId>
    const modelLoaderFactory: Factory
    const model: ModelValue

    var animationId: Int32
    var placeholderId: Int32
    var errorId: Int32
    var transformation: Option<Transformation>
    var downsampler: Downsampler
    var transformationLoader: Option<TransformationLoader>

    /** The configurable fields as a value. */
    function Options(): Options
      reads this
    {
      RequestOptions.Options(transformation, downsampler, transformationLoader,
                             animationId, placeholderId, errorId)
    }

    /** The body of `Request(model, factory)` once both checks have passed. */
    constructor Init(model: ModelValue, factory: Factory)
      ensures this.model == model && modelLoaderFactory == factory
      ensures Options() == DEFAULTS
      ensures context == None && target == None
    {
      this.model := model;
      modelLoaderFactory := factory;
      animationId, placeholderId, errorId := UNSET, UNSET, UNSET;
      transformation, downsampler, transformationLoader := Some(NONE), AtLeast, None;
      context, target := None, None;
    }

    // -------------------------------------------------------------------------
    // configuration: each method writes only its own fields and returns this

    method CenterCrop() returns (r: Request)
      modifies this`transformation, this`downsampler, this`transformationLoader
      ensures r == this && Options() == Apply(old(Options()), Setter.CenterCrop)
    {
      transformation := Some(CENTER_CROP);
      downsampler := AtLeast;
      transformationLoader := None;
      r := this;
    }

    method FitCenter() returns (r: Request)
      modifies this`transformation, this`downsampler, this`transformationLoader
      ensures r == this && Options() == Apply(old(Options()), Setter.FitCenter)
    {
      transformation := Some(FIT_CENTER);
      downsampler := AtLeast;
      transformationLoader := None;
      r := this;
    }

    method Approximate() returns (r: Request)
      modifies this`transformation, this`downsampler, this`transformationLoader
      ensures r == this && Options() == Apply(old(Options()), Setter.Approximate)
    {
      transformation := Some(NONE);
      downsampler := AtLeast;
      transformationLoader := None;
      r := this;
    }

    method AsIs() returns (r: Request)
      modifies this`transformation, this`downsampler, this`transformationLoader
      ensures r == this && Options() == Apply(old(Options()), Setter.AsIs)
    {
      transformation := Some(NONE);
      downsampler := NoDownsampling;
      transformationLoader := None;
      r := this;
    }

    /** `transform(Transformation)`; the argument may be `null`. */
    method Transform(t: Option<Transformation>) returns (r: Request)
      modifies this`transformation, this`downsampler, this`transformationLoader
      ensures r == this && Options() == Apply(old(Options()), Setter.Transform(t))
    {
      transformation := t;
      downsampler := AtLeast;
      transformationLoader := None;
      r := this;
    }

    /** `transform(TransformationLoader)`; the argument may be `null`. */
    method TransformWith(loader: Option<TransformationLoader>) returns (r: Request)
      modifies this`transformation, this`downsampler, this`transformationLoader
      ensures r == this && Options() == Apply(old(Options()), Setter.TransformWith(loader))
    {
      transformationLoader := loader;
      transformation := None;
      downsampler := AtLeast;
      r := this;
    }

    method Animate(id: Int32) returns (r: Request)
      modifies this`animationId
      ensures r == this && Options() == Apply(old(Options()), Setter.Animate(id))
    {
      animationId := id;
      r := this;
    }

    method Placeholder(id: Int32) returns (r: Request)
      modifies this`placeholderId
      ensures r == this && Options() == Apply(old(Options()), Setter.Placeholder(id))
    {
      placeholderId := id;
      r := this;
    }

    method Error(id: Int32) returns (r: Request)
      modifies this`errorId
      ensures r == this && Options() == Apply(old(Options()), Setter.Error(id))
    {
      errorId := id;
      r := this;
    }

    // -------------------------------------------------------------------------
    // finalisation

    /** `getFinalTransformationId()`; `None` is the NullPointerException when neither
        a loader nor a transformation is set. */
    function GetFinalTransformationId(): (r: Option<string>)
      reads this
      ensures r.None? <==> transformation.None? && transformationLoader.None?
      ensures transformationLoader.Some? ==> r == Some(ClassToString(transformationLoader.value.cls))
    {
      FinalTransformationId(Options())
    }

    /** `new Metadata(this)`; `None` when it throws. */
    function Metadata(): (r: Option<Metadata>)
      reads this
      ensures r.None? <==> transformation.None? && transformationLoader.None?
      ensures r.Some? ==>
        && r.value.modelClass == model.cls
        && r.value.modelLoaderClass == modelLoaderFactory.loaderClass
        && r.value.transformationId == GetFinalTransformationId().value
    {
      MetadataOfFields(model, modelLoaderFactory, Options());
      MetadataOf(model, modelLoaderFactory, Options())
    }

    /** `getFinalTransformationLoader()`. */
    function GetFinalTransformationLoader(): (r: TransformationLoader)
      reads this
      ensures transformationLoader.Some? ==> r == transformationLoader.value
      ensures transformationLoader.None? ==> r == WRAPPING_LOADER
    {
      FinalLoader(Options())
    }

    /** `buildImagePresenter(target)`: stores the final transformation loader in the
        draft, then builds a new presenter for the target. */
    method BuildImagePresenter(glide: Glide, target: TargetId, ghost fingerprint: Metadata)
      returns (presenter: PresenterId)
      modifies this`transformationLoader, glide`built, glide`origin, glide`events
      ensures Options() == AfterBuild(old(Options()))
      ensures presenter == old(glide.built)
      ensures glide.Tracking() == Build(old(glide.Tracking()), target, fingerprint)
    {
      transformationLoader := Some(GetFinalTransformationLoader());
      presenter := glide.NewPresenter(target, fingerprint);
    }

    /** `getImagePresenter(target)`; `Threw` when computing the fingerprint throws. */
    method GetImagePresenter(glide: Glide, target: TargetId) returns (r: Result<Option<PresenterId>>)
      modifies this`transformationLoader
      modifies glide`tracker, glide`slots, glide`cleared, glide`built, glide`origin, glide`events
      ensures old(Metadata()).None? ==>
        r == Failed(NullPointer) && glide.Tracking() == old(glide.Tracking()) && Options() == old(Options())
      ensures old(Metadata()).Some? ==>
        var current := old(Metadata()).value;
        var d := Lifecycle.GetImagePresenter(old(glide.Tracking()), target, current);
        && r == Returned(d.presenter)
        && glide.Tracking() == d.state
        && Options() == if current.Equals(Get(old(glide.tracker), target)) then old(Options())
                        else AfterBuild(old(Options()))
    {
      var previous := Get(glide.tracker, target);
      var current := Metadata();
      if current.None? {
        return Failed(NullPointer);
      }
      var result := glide.PresenterOf(target);
      if !current.value.Equals(previous) {
        if result.Some? {
          glide.ClearPresenter(result.value);
        }
        var presenter := BuildImagePresenter(glide, target, current.value);
        result := Some(presenter);
        glide.SetImagePresenter(target, presenter);
        glide.Track(target, current.value);
      }
      return Returned(result);
    }

    /** `finish(context, target)`: remember the context and target, get the target's
        presenter and set the model on it. The draft and the tracking state end as
        `Attach.Finish` says. */
    method Finish(glide: Glide, context: ContextId, target: TargetId) returns (failure: Option<Failure>)
      requires glide.Valid()
      modifies this`context, this`target, this`transformationLoader
      modifies glide`tracker, glide`slots, glide`cleared, glide`built, glide`origin, glide`events
      ensures this.context == Some(context) && this.target == Some(target)
      ensures glide.Valid()
      ensures Attach.Outcome(Options(), glide.Tracking(), failure)
                == Attach.Finish(old(Options()), model, modelLoaderFactory, old(glide.Tracking()), target)
    {
      this.context := Some(context);
      this.target := Some(target);
      ghost var o := Options();
      var presenter := GetImagePresenter(glide, target);
      if presenter.Failed? {
        return Some(presenter.failure);
      }
      ghost var current := MetadataOf(model, modelLoaderFactory, o).value;
      GetImagePresenterKeepsValid(old(glide.Tracking()), target, current);
      glide.SetModel(presenter.value.value, model);
      FinishKeepsValid(old(glide.Tracking()), target, current, model);
      return None;
    }

    /** `into(imageView)`: force no downsampling for a view whose size follows its
        content, then `finish` with the view's context and target. */
    method Into(glide: Glide, view: ImageView) returns (failure: Option<Failure>)
      requires glide.Valid()
      modifies this`context, this`target, this`transformationLoader, this`downsampler
      modifies glide`tracker, glide`slots, glide`cleared, glide`built, glide`origin, glide`events
      ensures context == Some(view.context) && target == Some(view.id)
      ensures glide.Valid()
      ensures Attach.Outcome(Options(), glide.Tracking(), failure)
                == Attach.Finish(ForLayout(old(Options()), view.layout), model, modelLoaderFactory,
                                 old(glide.Tracking()), view.id)
    {
      if WrapsContent(view.layout) {
        downsampler := NoDownsampling;
      }
      failure := Finish(glide, view.context, view.id);
    }

    /** `into(target)`: the pending request that `with(context)` finishes. */
    method IntoTarget(target: TargetId) returns (pending: ContextRequest)
      ensures fresh(pending) && pending.request == this && pending.target == target
    {
      pending := new ContextRequest(this, target);
    }
  }

  class ContextRequest {
    const request: Request
    const target: TargetId

    constructor(request: Request, target: TargetId)
      ensures this.request == request && this.target == target
    {
      this.request := request;
      this.target := target;
    }

    /** `with(context)`: `request.finish(context, target)`. */
    method With(glide: Glide, context: ContextId) returns (failure: Option<Failure>)
      requires glide.Valid()
      modifies request`context, request`target, request`transformationLoader
      modifies glide`tracker, glide`slots, glide`cleared, glide`built, glide`origin, glide`events
      ensures request.context == Some(context) && request.target == Some(target)
      ensures glide.Valid()
      ensures Attach.Outcome(request.Options(), glide.Tracking(), failure)
                == Attach.Finish(old(request.Options()), request.model, request.modelLoaderFactory,
                                 old(glide.Tracking()), target)
    {
      failure := request.Finish(glide, context, target);
    }
  }

  /** `new Request(model, factory)`: the model must be non-null, then the factory. */
  method NewRequest(model: Option<ModelValue>, factory: Option<Factory>) returns (r: Created)
    ensures model.None? ==> r == Threw(NullModel)
    ensures model.Some? && factory.None? ==> r == Threw(NoFactoryForModel)
    ensures model.Some? && factory.Some? ==>
      && r.Created? && fresh(r.request)
      && r.request.model == model.value && r.request.modelLoaderFactory == factory.value
      && r.request.Options() == DEFAULTS
  {
    if model.None? {
      return Threw(NullModel);
    }
    if factory.None? {
      return Threw(NoFactoryForModel);
    }
    var request := new Request.Init(model.value, factory.value);
    return Created(request);
  }

  /** `Glide.load(model)` (every overload): `new Request(model)`, which looks the
      factory up by `model.getClass()` before the null check, so a `null` model throws
      a NullPointerException rather than "Model can't be null". */
  method Load(glide: Glide, model: Option<ModelValue>) returns (r: Created)
    ensures model.None? ==> r == Threw(NullPointer)
    ensures model.Some? && glide.GetFactory(model.value).None? ==> r == Threw(NoFactoryForModel)
    ensures model.Some? && glide.GetFactory(model.value).Some? ==>
      && r.Created? && fresh(r.request)
      && r.request.model == model.value
      && r.request.modelLoaderFactory == glide.Registry().factories[model.value.cls]
      && r.request.Options() == DEFAULTS
  {
    if model.None? {
      return Threw(NullPointer);
    }
    r := NewRequest(model, glide.GetFactory(model.value));
  }

  /** `Glide.using(factory).load(model)`: the request with an explicit factory. */
  method LoadUsing(factory: Factory, model: Option<ModelValue>) returns (r: Created)
    ensures model.None? ==> r == Threw(NullModel)
    ensures model.Some? ==>
      && r.Created? && fresh(r.request)
      && r.request.model == model.value && r.request.modelLoaderFactory == factory
      && r.request.Options() == DEFAULTS
  {
    r := NewRequest(model, Some(factory));
  }
}

/** `Request.finish` end to end, on values: the fingerprint computed from the draft,
    the decision on the target, the `setModel` call, and the write-back of the final
    transformation loader into the draft when a presenter is built. */
module Attach {
  import opened JavaInt
  import opened Identities
  import opened Fingerprint
  import opened RequestOptions
  import opened Lifecycle
  import opened LoaderRegistry

  /** What `finish` leaves behind: the draft's options, the tracking state, and the
      exception it threw, if any. */
  datatype Outcome = Outcome(options: Options, state: Tracking, failure: Option<Failure>)

  /** `finish(context, target)` for a draft with options `o`, model `model` and loader
      factory `factory`. */
  function Finish(o: Options, model: ModelValue, factory: Factory, s: Tracking, target: TargetId): Outcome {
    match MetadataOf(model, factory, o)
    case None => Outcome(o, s, Some(NullPointer))
    case Some(m) =>
      var o' := if m.Equals(Get(s.tracker, target)) then o else AfterBuild(o);
      match Lifecycle.Finish(s, target, m, model)
      case None => Outcome(o', GetImagePresenter(s, target, m).state, Some(NullPointer))
      case Some(s') => Outcome(o', s', None)
  }

  /** `finish` fails exactly when the draft has neither a transformation nor a loader
      (after `transform(null)`), and then changes nothing; otherwise it keeps the
      tracking invariant and ends with `setModel(model)` on the target's presenter. */
  lemma FinishOutcome(o: Options, model: ModelValue, factory: Factory, s: Tracking, target: TargetId)
    requires Valid(s)
    ensures var r := Finish(o, model, factory, s, target);
      && (r.failure.Some? <==> o.transformation.None? && o.transformationLoader.None?)
      && (r.failure.Some? ==> r == Outcome(o, s, Some(NullPointer)))
      && (r.failure.None? ==>
            && Valid(r.state)
            && target in r.state.slots
            && r.state.events[|r.state.events| - 1] == ModelSet(r.state.slots[target], model))
  {
    MetadataOfFields(model, factory, o);
    if MetadataOf(model, factory, o).Some? {
      FinishKeepsValid(s, target, MetadataOf(model, factory, o).value, model);
    }
  }

  // ---------------------------------------------------------------------------
  // The end-to-end scenario: a factory for `Path` models; a request for
  // `Path("a.jpg")` with `centerCrop()` and `placeholder(42)` put into target X; the
  // same request made again; then the `fitCenter()` variant.

  const PATH: ClassRef := ClassRef("Path")
  const PATH_FACTORY: Factory := Factory(100, ClassRef("PathLoader"))
  const A_JPG: ModelValue := ModelValue(PATH, "a.jpg")
  const X: TargetId := 7

  lemma {:induction false} EndToEndScenario()
    ensures var reg := Register(Initial(true), PATH, PATH_FACTORY);
      var factory := reg.factories[PATH];
      var cropped := ApplyAll(DEFAULTS, [CenterCrop, Placeholder(42)]);
      var fitted := ApplyAll(DEFAULTS, [FitCenter, Placeholder(42)]);
      var r1 := Finish(cropped, A_JPG, factory, EMPTY, X);
      var r2 := Finish(cropped, A_JPG, factory, r1.state, X);
      var r3 := Finish(fitted, A_JPG, factory, r2.state, X);
      // first request: one presenter built, bound to X, one setModel
      && factory == PATH_FACTORY && reg.tornDown == []
      && r1.failure.None? && r1.state.slots[X] == 0
      && r1.state.events == [Built(0, X), ModelSet(0, A_JPG)]
      // identical request: no presenter built, one more setModel on the same presenter
      && r2.failure.None? && r2.state.built == 1
      && r2.state.events == r1.state.events + [ModelSet(0, A_JPG)]
      // fitCenter variant: the first presenter is cleared before the second is built
      && r3.failure.None? && r3.state.slots[X] == 1
      && r3.state.events == r2.state.events + [Cleared(0), Built(1, X), ModelSet(1, A_JPG)]
  {
    ScenarioRegistry();
    ScenarioDrafts();
    var cropped := ApplyAll(DEFAULTS, [CenterCrop, Placeholder(42)]);
    var fitted := ApplyAll(DEFAULTS, [FitCenter, Placeholder(42)]);
    var m1 := MetadataOf(A_JPG, PATH_FACTORY, cropped).value;
    var m3 := MetadataOf(A_JPG, PATH_FACTORY, fitted).value;
    assert m1 != m3 by { assert m1.transformationId != m3.transformationId; }
    EmptyValid();
    FinishKeepsValid(EMPTY, X, m1, A_JPG);
    var s1 := Lifecycle.Finish(EMPTY, X, m1, A_JPG).value;
    assert s1.events == [Built(0, X), ModelSet(0, A_JPG)];
    IdenticalReattach(EMPTY, X, m1, A_JPG, A_JPG);
    var s2 := Lifecycle.Finish(s1, X, m1, A_JPG).value;
    ReplacementClearsFirst(s1, X, m1, m3, A_JPG, A_JPG);
    var r1 := Finish(cropped, A_JPG, PATH_FACTORY, EMPTY, X);
    assert r1.state == s1;
    var r2 := Finish(cropped, A_JPG, PATH_FACTORY, s1, X);
    assert r2.state == s2;
  }

  /** The registry of the scenario: `Path` was not registered, so nothing is torn down. */
  lemma ScenarioRegistry()
    ensures Register(Initial(true), PATH, PATH_FACTORY).factories[PATH] == PATH_FACTORY
    ensures Register(Initial(true), PATH, PATH_FACTORY).tornDown == []
  {
    assert PATH !in Initial(true).factories;
  }

  /** The two drafts of the scenario. */
  lemma ScenarioDrafts()
    ensures ApplyAll(DEFAULTS, [CenterCrop, Placeholder(42)])
              == DEFAULTS.(transformation := Some(CENTER_CROP), placeholderId := 42)
    ensures ApplyAll(DEFAULTS, [FitCenter, Placeholder(42)])
              == DEFAULTS.(transformation := Some(FIT_CENTER), placeholderId := 42)
  {
    assert [CenterCrop, Placeholder(42)][..1] == [CenterCrop] && [CenterCrop][..0] == [];
    assert [FitCenter, Placeholder(42)][..1] == [FitCenter] && [FitCenter][..0] == [];
  }

  /** A `Request` object put into a fresh target a second time does not reuse the
      presenter it built the first time: the first build wrote the wrapping loader into
      the draft, which changes its fingerprint, so the presenter is cleared and rebuilt
      once; from the third time on the draft and its presenter are reused. */
  lemma {:induction false} ReusedRequestRebuildsOnce(o: Options, model: ModelValue, factory: Factory,
                                                     s: Tracking, target: TargetId)
    requires Valid(s)
    requires target !in s.tracker
    requires o.transformationLoader.None? && o.transformation.Some?
    requires o.transformation.value.id != ClassToString(WRAPPING_LOADER.cls)
    ensures var r1 := Finish(o, model, factory, s, target);
      var r2 := Finish(r1.options, model, factory, r1.state, target);
      var r3 := Finish(r2.options, model, factory, r2.state, target);
      var first := r1.state.slots[target];
      && r1.options == AfterBuild(o)
      && r2.state.events == r1.state.events
           + [Cleared(first), Built(r1.state.built, target), ModelSet(r1.state.built, model)]
      && r3.options == r2.options
      && r3.state.built == r2.state.built
      && r3.state.events == r2.state.events + [ModelSet(r2.state.slots[target], model)]
  {
    AfterBuildChangesFingerprint(model, factory, o);
    var m := MetadataOf(model, factory, o).value;
    var m' := MetadataOf(model, factory, AfterBuild(o)).value;
    FinishKeepsValid(s, target, m, model);
    var s1 := Lifecycle.Finish(s, target, m, model).value;
    assert s1.tracker[target] == m;
    ReplacementClearsFirst(s, target, m, m', model, model);
    FinishKeepsValid(s1, target, m', model);
    var s2 := Lifecycle.Finish(s1, target, m', model).value;
    IdenticalReattach(s1, target, m', model, model);
  }
}

# Glide request deduplication core, modelled in Dafny

This project models the request core of Glide's `Glide.java` (an early version of the
Android image-loading library):

- the `Glide.Request` draft, a fluent builder;
- the `Metadata` fingerprint;
- the per-target decision to reuse or replace a presenter (`finish`,
  `getImagePresenter`, `cancel`);
- the loader-factory registry (`register`);
- the lazily created image manager.

It proves what these promise about one another.

The model has two layers:

- **Values and lemmas.** The properties are proved here.
  - `JavaInt` covers Java `int` arithmetic and `String.hashCode`.
  - `Identities` holds the opaque identities of classes, models, factories,
    transformations, targets, presenters and contexts.
  - `Fingerprint` is `Metadata`, with its `equals` and `hashCode`.
  - `RequestOptions` holds the draft's configurable fields, the effect of each
    configuration method, and how the fingerprint is computed.
  - `Lifecycle` holds the tracker, each target's presenter slot, the presenters' cleared
    flags and the ordered log of `build` / `clear` / `setModel` calls. It has the reuse,
    replace and cancel decisions and the invariant they keep.
  - `LoaderRegistry` covers `register` and `teardown`.
  - `Attach` is `finish` end to end, including the draft write-back.
- **Objects** (`GlideModel`). These are the classes `Glide`, `GenericLoaderFactory`,
  `Request` and `ContextRequest`, whose fields the source updates in place. Every method
  states its new state as a function of the old state, using the value layer. Its
  `modifies` clause names only the fields it writes.

Presenters are numbered objects: building one takes the next number. Target slots,
cleared flags and the call log live in `Glide` next to the tracker. The process-wide
singleton `GLIDE` is passed explicitly as a `glide` parameter.

Behaviour of the code that the model keeps as written:

- The reuse path returns the target's current presenter without checking whether it was
  cleared. After `cancel`, an identical request therefore calls `setModel` on a cleared
  presenter (`Lifecycle.CancelThenReattachReusesCleared`).
- `cancel` touches neither the tracker nor the target's slot. So it answers `true` every
  time for a target on which a `finish` ever succeeded (`Lifecycle.CancelTwiceAnswersTrue`).
- `buildImagePresenter` stores the final transformation loader back into the draft. Before
  that build the fingerprint names the transformation's id; afterwards it names the
  wrapping loader's class. So when one `Request` object is put into the same target twice,
  the second `into` clears and rebuilds the presenter. Only the third reuses it
  (`Attach.ReusedRequestRebuildsOnce`).
- `Glide.load(model)` looks the factory up by `model.getClass()` before the constructor's
  null check. A `null` model therefore throws a NullPointerException, not the
  constructor's "Model can't be null" (`GlideModel.Load`). That message is reached only
  through `using(factory).load(null)` (`GlideModel.LoadUsing`).
- `transform(null)` in either form leaves neither a transformation nor a loader. Computing
  the fingerprint then throws a NullPointerException, and `finish` fails before changing
  any target (`Attach.FinishOutcome`).

`cancel`'s own comment (Glide.java:343) promises "true iff Glide had ever been asked to
load an image for this target". The code answers true iff the target holds a presenter,
that is, iff a `finish` on it has ever succeeded. The two differ when every request for
the target failed to compute its fingerprint: after `transform(null)`, `into(view)`
throws before a presenter is set (Glide.java:635 and 668), and a later `cancel(view)`
answers false (`Attach.FinishOutcome`, `Lifecycle.CancelSemantics`). A second `cancel`
is not a no-op that answers false.

## Model

| member | source | states |
|---|---|---|
| JavaInt.FoldIsWrappedPoly | library/src/com/bumptech/glide/Glide.java:693-702 | evaluating `31 * h + x` step by step in wrapping `int` arithmetic gives the exact 31-polynomial reduced modulo 2^32 once |
| JavaInt.StringHashIsPolynomial | library/src/com/bumptech/glide/Glide.java:699-700 | `String.hashCode()` of the two id strings is the 31-polynomial over the string's code units, modulo 2^32 |
| Fingerprint.Metadata.Equals | library/src/com/bumptech/glide/Glide.java:674-690 | `equals` holds exactly when the argument is non-null and all seven fields are equal |
| Fingerprint.Metadata.HashCode | library/src/com/bumptech/glide/Glide.java:692-702 | `hashCode`: seven wrapping `31 * result + h` steps over the field hashes; its closed form is `HashCodeIsPolynomial` and its agreement with `equals` is `HashConsistentWithEquals` |
| Fingerprint.EqualsReflexive | library/src/com/bumptech/glide/Glide.java:674-678 | a fingerprint equals itself and never equals `null` |
| Fingerprint.EqualsSymmetricTransitive | library/src/com/bumptech/glide/Glide.java:674-690 | `equals` is symmetric and transitive |
| Fingerprint.HashConsistentWithEquals | library/src/com/bumptech/glide/Glide.java:674-702 | equal fingerprints have equal `hashCode`, whatever the classes' identity hashes are |
| Fingerprint.HashCodeIsPolynomial | library/src/com/bumptech/glide/Glide.java:692-702 | `hashCode` is `31^6*h0 + .. + h6` over the seven field hashes, in field order, modulo 2^32 |
| Identities.DownsamplerIdInjective | library/src/com/bumptech/glide/Glide.java:667 | two downsamplers with the same id are the same downsampler, so the fingerprint tells `AT_LEAST` from `NONE` |
| RequestOptions.Apply | library/src/com/bumptech/glide/Glide.java:422-528 | the effect of one configuration method on the draft; what it writes and keeps is `ApplyWritesOwnFields`, and chains of it are `ApplyAllIsLastWins` |
| RequestOptions.FinalTransformationId | library/src/com/bumptech/glide/Glide.java:631-637 | the loader's class string when a loader is set, else the transformation's id, else a NullPointerException; stated in `MetadataOfFields` |
| RequestOptions.FinalLoader | library/src/com/bumptech/glide/Glide.java:618-629 | the draft's loader when set, else the wrapping loader (see `GlideModel.Request.GetFinalTransformationLoader`) |
| RequestOptions.AfterBuild | library/src/com/bumptech/glide/Glide.java:587 | the draft after the final loader is stored back; `AfterBuildChangesFingerprint` shows it changes a loader-less draft's fingerprint once |
| RequestOptions.MetadataOf | library/src/com/bumptech/glide/Glide.java:664-672 | `new Metadata(request)`; its contents and failure case are `MetadataOfFields`, its equality `MetadataEqualIff` |
| RequestOptions.ForLayout | library/src/com/bumptech/glide/Glide.java:539-546 | the downsampler becomes `NONE` exactly for a non-null layout with a wrap-content width or height; every other field is kept |
| RequestOptions.ApplyWritesOwnFields | library/src/com/bumptech/glide/Glide.java:422-528 | each resize method installs a fixed (transformation, downsampler, loader) triple that does not depend on the draft, and keeps the three ids; each id method changes only its own id |
| RequestOptions.ApplyAllIsLastWins | library/src/com/bumptech/glide/Glide.java:394-528 | after any chain of configuration calls, every field holds the value written by the last call that writes it, else its previous value (the ids default to -1) |
| RequestOptions.LastResizeWins | library/src/com/bumptech/glide/Glide.java:422-491 | a resize call followed only by id calls determines the resize style, whatever came before |
| RequestOptions.MetadataOfFields | library/src/com/bumptech/glide/Glide.java:664-672 | a draft has a fingerprint unless both its transformation and its loader are null. The fingerprint holds the model class, the loader class, the three ids and the downsampler id. Its transformation id is the loader's class string if a loader is set, else the transformation's id |
| RequestOptions.MetadataEqualIff | library/src/com/bumptech/glide/Glide.java:664-690 | two drafts have equal fingerprints iff they agree on model class, loader class, the three ids, the downsampler and the transformation id; the model value plays no part |
| RequestOptions.ResizeGivesMetadata | library/src/com/bumptech/glide/Glide.java:631-637 | after any resize method other than `transform(null)`, the fingerprint can be computed |
| RequestOptions.WrapContentChangesFingerprint | library/src/com/bumptech/glide/Glide.java:539-546 | the fingerprint reflects the effective downsampler: a draft whose downsampler is `AT_LEAST` gets different fingerprints in a wrap-content view and in a fixed-size view (an `asIs()` draft gets the same one in both) |
| RequestOptions.AfterBuildChangesFingerprint | library/src/com/bumptech/glide/Glide.java:586-637 | storing the final loader into a draft that had none changes its fingerprint; doing it again changes nothing |
| Lifecycle.GetImagePresenter | library/src/com/bumptech/glide/Glide.java:566-584 | reuse on an equal tracked fingerprint, else clear, build, set and track; stated by `ReusePath`, `ReplacePath` and `GetImagePresenterKeepsValid` |
| Lifecycle.Finish | library/src/com/bumptech/glide/Glide.java:553-559 | `getImagePresenter` then `setModel`; stated by `FinishKeepsValid`, `IdenticalReattach` and `ReplacementClearsFirst` |
| Lifecycle.Cancel | library/src/com/bumptech/glide/Glide.java:345-353 | clear the target's presenter if any and say whether there was one; stated by `CancelSemantics` |
| Lifecycle.EmptyValid | library/src/com/bumptech/glide/Glide.java:50 | the empty tracker satisfies the tracking invariant |
| Lifecycle.ReusePath | library/src/com/bumptech/glide/Glide.java:567-583 | a fingerprint equal to the tracked one returns the target's current presenter. Nothing is cleared, built or recorded, and slots and tracker are unchanged |
| Lifecycle.ReplacePath | library/src/com/bumptech/glide/Glide.java:572-583 | an unequal or untracked fingerprint clears the old presenter (if any) before building a new one. The new presenter did not exist before and becomes the target's presenter, and the tracker maps the target to the new fingerprint. No other target changes |
| Lifecycle.GetImagePresenterKeepsValid | library/src/com/bumptech/glide/Glide.java:566-583 | `getImagePresenter` keeps the invariant, never returns null, returns the presenter the target then holds, and leaves the target tracked under the new fingerprint |
| Lifecycle.FinishKeepsValid | library/src/com/bumptech/glide/Glide.java:553-559 | `finish` keeps the invariant and ends with exactly one `setModel(model)`, on the target's presenter |
| Lifecycle.IdenticalReattach | library/src/com/bumptech/glide/Glide.java:553-583 | a second `finish` with the same fingerprint builds and clears nothing; its only effect is one more `setModel` on the same presenter |
| Lifecycle.ReplacementClearsFirst | library/src/com/bumptech/glide/Glide.java:553-583 | `finish` with fingerprint a and then with b != a logs exactly: clear of the first presenter, build of the second, then `setModel` on the second |
| Lifecycle.CancelSemantics | library/src/com/bumptech/glide/Glide.java:345-353 | `cancel` returns true iff the target holds a presenter and clears it in that case; slots and tracker are unchanged |
| Lifecycle.CancelKeepsValid | library/src/com/bumptech/glide/Glide.java:345-353 | `cancel` keeps the tracking invariant |
| Lifecycle.CancelTwiceAnswersTrue | library/src/com/bumptech/glide/Glide.java:345-353 | after an attach, two `cancel`s both return true and clear the same presenter twice |
| Lifecycle.CancelThenReattachReusesCleared | library/src/com/bumptech/glide/Glide.java:567-583 | after `cancel`, an identical request builds nothing and calls `setModel` on the cleared presenter |
| Lifecycle.AtMostOneLivePresenter | library/src/com/bumptech/glide/Glide.java:572-581 | two presenters built for one target that are both uncleared are the same presenter |
| Lifecycle.RecordedFingerprintMatches | library/src/com/bumptech/glide/Glide.java:576-580 | a tracked target holds a presenter, built for it under the fingerprint the tracker records |
| LoaderRegistry.Register | library/src/com/bumptech/glide/Glide.java:166-171 | install the factory and tear down the one displaced; stated by `RegisterTearsDownDisplaced` |
| LoaderRegistry.RegisterTearsDownDisplaced | library/src/com/bumptech/glide/Glide.java:166-171 | `register` installs the factory, keeps other classes, and calls `teardown` once on the displaced factory, or not at all when none was displaced |
| LoaderRegistry.RegisterAllTearsDownAllButLast | library/src/com/bumptech/glide/Glide.java:166-171 | successive registrations for one new class leave the last factory installed and tear down every earlier one once, in order |
| LoaderRegistry.Initial | library/src/com/bumptech/glide/Glide.java:62-100 | the constructor registers File, Integer, String, Uri and URL; URL gets the Volley factory or the always-failing one, depending on the probe |
| Attach.Finish | library/src/com/bumptech/glide/Glide.java:553-587 | `finish` on values: fingerprint, decision, write-back of the final loader when a presenter is built, `setModel`; stated by `FinishOutcome` |
| Attach.FinishOutcome | library/src/com/bumptech/glide/Glide.java:553-559 | `finish` fails exactly when both transformation and loader are null, and then changes nothing. Otherwise it keeps the invariant and ends with `setModel(model)` on the target's presenter |
| Attach.EndToEndScenario | library/src/com/bumptech/glide/Glide.java:553-583 | register a `Path` factory, attach a `centerCrop` + `placeholder(42)` request: one build and one `setModel`. Repeat it: one more `setModel` only. Then `fitCenter`: clear, build, `setModel` |
| Attach.ReusedRequestRebuildsOnce | library/src/com/bumptech/glide/Glide.java:586-587 | one `Request` put into a new target three times: the second time clears and rebuilds, the third reuses |
| GlideModel.GenericLoaderFactory.Register | library/src/com/bumptech/glide/Glide.java:167 | the registry's `register` installs the factory and returns the one previously registered for the class |
| GlideModel.GenericLoaderFactory.GetFactory | library/src/com/bumptech/glide/Glide.java:186-189 | the factory registered for the class, or none |
| GlideModel.Glide.constructor | library/src/com/bumptech/glide/Glide.java:62-100 | a new `Glide` has an empty tracker, no image manager and the initial registry |
| GlideModel.Glide.IsImageManagerSet | library/src/com/bumptech/glide/Glide.java:128-130 | whether a manager is set; `SetImageManager` and `GetImageManager` state how it changes |
| GlideModel.Glide.SetImageManager | library/src/com/bumptech/glide/Glide.java:149-151 | the given manager (or null) becomes the current one |
| GlideModel.Glide.SetImageManagerFor | library/src/com/bumptech/glide/Glide.java:137-139 | a newly built manager becomes the current one |
| GlideModel.Glide.GetImageManager | library/src/com/bumptech/glide/Glide.java:112-130 | afterwards a manager is set; a manager already set is returned unchanged and nothing is built; otherwise exactly one is built and returned |
| GlideModel.Glide.Register | library/src/com/bumptech/glide/Glide.java:166-171 | the registry changes exactly as `LoaderRegistry.Register` says |
| GlideModel.Glide.GetFactory | library/src/com/bumptech/glide/Glide.java:186-189 | the factory registered for the model's class |
| GlideModel.Glide.Cancel | library/src/com/bumptech/glide/Glide.java:345-353 | the state and answer are `Lifecycle.Cancel`'s, and the invariant is kept |
| GlideModel.Glide.CancelView | library/src/com/bumptech/glide/Glide.java:334-336 | cancel for the view's target |
| GlideModel.Request.Init | library/src/com/bumptech/glide/Glide.java:394-415 | a new draft holds the model and factory, the default resize style and -1 ids |
| GlideModel.Request.CenterCrop | library/src/com/bumptech/glide/Glide.java:422-428 | returns the same request; writes only the resize fields, as `Apply(_, CenterCrop)` |
| GlideModel.Request.FitCenter | library/src/com/bumptech/glide/Glide.java:435-441 | returns the same request; writes only the resize fields, as `Apply(_, FitCenter)` |
| GlideModel.Request.Approximate | library/src/com/bumptech/glide/Glide.java:448-454 | returns the same request; writes only the resize fields, as `Apply(_, Approximate)` |
| GlideModel.Request.AsIs | library/src/com/bumptech/glide/Glide.java:462-468 | returns the same request; writes only the resize fields, as `Apply(_, AsIs)` |
| GlideModel.Request.Transform | library/src/com/bumptech/glide/Glide.java:477-483 | returns the same request; installs the transformation (or null) with `AT_LEAST` and no loader |
| GlideModel.Request.TransformWith | library/src/com/bumptech/glide/Glide.java:485-491 | returns the same request; installs the loader (or null), nulls the transformation, sets `AT_LEAST` |
| GlideModel.Request.Animate | library/src/com/bumptech/glide/Glide.java:500-504 | returns the same request; changes only the animation id |
| GlideModel.Request.Placeholder | library/src/com/bumptech/glide/Glide.java:512-516 | returns the same request; changes only the placeholder id |
| GlideModel.Request.Error | library/src/com/bumptech/glide/Glide.java:524-528 | returns the same request; changes only the error id |
| GlideModel.Request.GetFinalTransformationId | library/src/com/bumptech/glide/Glide.java:631-637 | throws exactly when both transformation and loader are null; with a loader set it is the loader's class string |
| GlideModel.Request.Metadata | library/src/com/bumptech/glide/Glide.java:664-672 | throws exactly when both transformation and loader are null; otherwise it holds the model's class, the factory's loader class and the final transformation id |
| GlideModel.Request.GetFinalTransformationLoader | library/src/com/bumptech/glide/Glide.java:618-629 | the draft's loader if set, else the wrapping loader |
| GlideModel.Request.BuildImagePresenter | library/src/com/bumptech/glide/Glide.java:586-616 | stores the final loader into the draft and builds a presenter that did not exist before |
| GlideModel.Request.GetImagePresenter | library/src/com/bumptech/glide/Glide.java:566-584 | throws when the fingerprint cannot be computed, changing nothing. Otherwise the result and new state are `Lifecycle.GetImagePresenter`'s, and the draft takes the loader write-back exactly when a presenter was built |
| GlideModel.Request.Finish | library/src/com/bumptech/glide/Glide.java:553-559 | records context and target; the draft, tracking state and exception are `Attach.Finish`'s; the invariant is kept |
| GlideModel.Request.Into | library/src/com/bumptech/glide/Glide.java:536-547 | records the view's context and target, and ends as `finish` on the draft whose downsampler is forced to none for a wrap-content view |
| GlideModel.Request.IntoTarget | library/src/com/bumptech/glide/Glide.java:549-551 | a new pending request for this draft and target |
| GlideModel.ContextRequest.With | library/src/com/bumptech/glide/Glide.java:649-651 | the request records the given context and the pending target, and ends as `finish` of its draft on that target |
| GlideModel.NewRequest | library/src/com/bumptech/glide/Glide.java:405-415 | a null model fails with "Model can't be null"; otherwise a null factory fails with "no factory"; otherwise a new draft holds both |
| GlideModel.Load | library/src/com/bumptech/glide/Glide.java:401-403 | a null model throws a NullPointerException (from `getFactory`); an unregistered class fails with "no factory"; otherwise the draft uses the registered factory |
| GlideModel.LoadUsing | library/src/com/bumptech/glide/Glide.java:367-369 | a draft with the given factory, or "Model can't be null" |

## Left out

- `buildModelLoader` (Glide.java:182-184) delegates to `GenericLoaderFactory.buildModelLoader`, which is not part of this model.
- `using(ModelLoader)` (Glide.java:228-244) wraps a loader in an anonymous factory. It is not modelled; `using(factory).load(model)` is (`GlideModel.LoadUsing`).
- `buildImagePresenter` passes several things to `ImagePresenter.Builder`: the loaders, the context, the placeholder, error and animation resources, and the animation callback (Glide.java:589-615). Only the build itself is modelled, as a presenter that did not exist before. Presenters, decoding and animation are not part of this model.
- Presenter states beyond "cleared", and the suppression of stale completions, belong to `ImagePresenter`. That class is not part of this model.
- `metadataTracker` is a `WeakHashMap`. It is modelled as an ordinary map whose entries never vanish, because reachability cannot be expressed.
- `Target` identity is a number. `new ImageViewTarget(view)` is taken to be the same target for the same view; `ImageViewTarget` is not part of this model.
- The `Class.forName` probe for Volley is a boolean parameter of the constructor.
- Threading and the main-thread requirement are not modelled. The `GLIDE` singleton is an explicit parameter.
- `GenericLoaderFactory.getFactory` is modelled as an exact-class lookup, and its `register` only by its return-the-previous-factory contract. Any superclass lookup or sharing check inside it is not part of this model.
- The `getId()` strings of `Downsampler` and `Transformation` are not in the source. They are modelled as constants that are distinct within each field: `"AT_LEAST"` and `"NONE"` for the downsamplers, `"NONE"`, `"CENTER_CROP"` and `"FIT_CENTER"` for the transformations.
- The wrapping loader's class name `Glide$Request$2` is assumed from javac's numbering of anonymous classes in source order; the proofs need only that its class string differs from the draft's transformation id, which `AfterBuildChangesFingerprint` requires.
- `Class.hashCode()` is an identity hash. It is a parameter of `Metadata.HashCode`.
- `String.hashCode()` works on UTF-16 code units. A character outside the Basic Multilingual Plane is modelled as one unit (its low 16 bits) instead of a surrogate pair.
- Null factories, a null `loaderClass()` and null `getId()` strings are not modelled. Factories, loader classes and ids are always present.
- A `Request` that reached a NullPointerException in `finish` has still recorded its context and target. No later behaviour depends on that.

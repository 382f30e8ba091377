/** The per-target reuse/replace decision of `Request.getImagePresenter`, `finish` and
    `Glide.cancel`, stated on a value: the metadata tracker (target to fingerprint),
    each target's presenter slot, the presenters built so far and which of them are
    cleared, and the log of presenter calls in the order they were made. The `Glide`
    and `Request` classes in module GlideModel are tied to these functions. */
module Lifecycle {
  import opened Identities
  import opened Fingerprint

  /** A call on a presenter, as it appears in the log. */
  datatype Event =
    | Built(presenter: PresenterId, target: TargetId)   // `buildImagePresenter(target)`
    | Cleared(presenter: PresenterId)                    // `presenter.clear()`
    | ModelSet(presenter: PresenterId, model: ModelValue) // `presenter.setModel(model)`

  /** Which target a presenter was built for, and under which fingerprint. */
  datatype Origin = Origin(target: TargetId, fingerprint: Metadata)

  datatype Tracking = Tracking(
    tracker: map<TargetId, Metadata>,     // `Glide.metadataTracker`
    slots: map<TargetId, PresenterId>,    // each target's `getImagePresenter()`
    cleared: set<PresenterId>,            // presenters whose `clear()` has been called
    built: nat,                           // presenters 0 .. built-1 exist
    origin: map<PresenterId, Origin>,     // bookkeeping: what each presenter was built for
    events: seq<Event>)                   // every presenter call, oldest first

  /** No target tracked, no presenter built. */
  const EMPTY: Tracking := Tracking(map[], map[], {}, 0, map[], [])

  /** The presenter `p` is the one its target currently holds. */
  predicate Bound(s: Tracking, p: PresenterId)
    requires p in s.origin
  {
    s.origin[p].target in s.slots && s.slots[s.origin[p].target] == p
  }

  /** The invariant every operation keeps:
      - a target is tracked exactly when it holds a presenter;
      - the presenter a target holds was built for that target, under the fingerprint
        recorded for the target;
      - every presenter that has not been cleared is the one its target holds, so no
        superseded presenter is left running. */
  ghost predicate Valid(s: Tracking) {
    && s.tracker.Keys == s.slots.Keys
    && (forall p :: p in s.origin ==> p < s.built)
    && s.cleared <= s.origin.Keys
    && (forall t :: t in s.slots ==>
          s.slots[t] in s.origin && s.origin[s.slots[t]] == Origin(t, s.tracker[t]))
    && (forall p :: p in s.origin && p !in s.cleared ==> Bound(s, p))
  }

  lemma EmptyValid()
    ensures Valid(EMPTY)
  {
  }

  /** `presenter.clear()`. */
  function Clear(s: Tracking, p: PresenterId): Tracking {
    s.(cleared := s.cleared + {p}, events := s.events + [Cleared(p)])
  }

  /** `buildImagePresenter(target)`: a presenter that did not exist before. */
  function Build(s: Tracking, target: TargetId, fingerprint: Metadata): Tracking {
    s.(built := s.built + 1,
       origin := s.origin[s.built := Origin(target, fingerprint)],
       events := s.events + [Built(s.built, target)])
  }

  /** `presenter.setModel(model)`. */
  function SetModel(s: Tracking, p: PresenterId, model: ModelValue): Tracking {
    s.(events := s.events + [ModelSet(p, model)])
  }

  /** The new state and the presenter `getImagePresenter` returns (`None` is `null`). */
  datatype Decision = Decision(state: Tracking, presenter: Option<PresenterId>)

  /** `getImagePresenter(target)` with the request's fingerprint `current`: when it
      equals the fingerprint tracked for the target, the target's presenter is returned
      as it is; otherwise the target's presenter, if any, is cleared, a new one is built
      and set on the target, and the tracker records `current`. */
  function GetImagePresenter(s: Tracking, target: TargetId, current: Metadata): Decision {
    var previous := Get(s.tracker, target);
    var result := Get(s.slots, target);
    if current.Equals(previous) then
      Decision(s, result)
    else
      var s1 := if result.Some? then Clear(s, result.value) else s;
      var p := s1.built;
      var s2 := Build(s1, target, current);
      Decision(s2.(slots := s2.slots[target := p], tracker := s2.tracker[target := current]), Some(p))
  }

  /** `finish(context, target)`: get the presenter, then `setModel(model)` on it;
      `None` is the NullPointerException of calling `setModel` on `null`. */
  function Finish(s: Tracking, target: TargetId, current: Metadata, model: ModelValue): Option<Tracking> {
    var d := GetImagePresenter(s, target, current);
    match d.presenter
    case None => None
    case Some(p) => Some(SetModel(d.state, p, model))
  }

  /** `Glide.cancel(target)`: clear the target's presenter if it has one, and say whether
      it had one. Neither the slot nor the tracker is touched. */
  function Cancel(s: Tracking, target: TargetId): (Tracking, bool) {
    match Get(s.slots, target)
    case None => (s, false)
    case Some(p) => (Clear(s, p), true)
  }

  // ---------------------------------------------------------------------------
  // getImagePresenter

  /** Reuse path: a fingerprint equal to the tracked one gets the target's current
      presenter back, and nothing is cleared, built, set or recorded. */
  lemma ReusePath(s: Tracking, target: TargetId, current: Metadata)
    requires Valid(s)
    requires target in s.tracker && s.tracker[target] == current
    ensures GetImagePresenter(s, target, current) == Decision(s, Some(s.slots[target]))
  {
  }

  /** Replace path: for an unequal fingerprint, or an untracked target, the old
      presenter (if any) is cleared before a new presenter is built; the new one did not
      exist before, becomes the target's presenter, and the tracker maps the target to
      `current`. No other target's slot or fingerprint changes. */
  lemma ReplacePath(s: Tracking, target: TargetId, current: Metadata)
    requires Valid(s)
    requires target !in s.tracker || s.tracker[target] != current
    ensures var d := GetImagePresenter(s, target, current);
      var p := s.built;
      && p !in s.origin
      && d.presenter == Some(p)
      && d.state.slots == s.slots[target := p]
      && d.state.tracker == s.tracker[target := current]
      && d.state.events == s.events
           + (if target in s.slots then [Cleared(s.slots[target])] else [])
           + [Built(p, target)]
      && d.state.cleared == s.cleared + (if target in s.slots then {s.slots[target]} else {})
  {
  }

  /** `getImagePresenter` keeps the invariant and always returns a presenter, the one
      the target then holds, and afterwards the target is tracked under `current`. */
  lemma GetImagePresenterKeepsValid(s: Tracking, target: TargetId, current: Metadata)
    requires Valid(s)
    ensures var d := GetImagePresenter(s, target, current);
      && Valid(d.state)
      && target in d.state.slots
      && d.presenter == Some(d.state.slots[target])
      && d.state.tracker[target] == current
  {
    var previous := Get(s.tracker, target);
    if !current.Equals(previous) {
      var result := Get(s.slots, target);
      var s1 := if result.Some? then Clear(s, result.value) else s;
      assert Valid(s1.(cleared := s.cleared)) by { assert s1.(cleared := s.cleared, events := s.events) == s; }
      var p := s1.built;
      var s2 := Build(s1, target, current);
      var s3 := s2.(slots := s2.slots[target := p], tracker := s2.tracker[target := current]);
      forall q | q in s3.origin && q !in s3.cleared
        ensures Bound(s3, q)
      {
        if q != p {
          assert q in s.origin && q !in s.cleared;
          assert Bound(s, q);
          assert s.origin[q].target != target;
        }
      }
    }
  }

  // ---------------------------------------------------------------------------
  // finish

  /** `finish` keeps the invariant and never dereferences `null`: it ends with exactly
      one `setModel(model)`, on the presenter the target then holds. */
  lemma {:induction false} FinishKeepsValid(s: Tracking, target: TargetId, current: Metadata, model: ModelValue)
    requires Valid(s)
    ensures Finish(s, target, current, model).Some?
    ensures var s' := Finish(s, target, current, model).value;
      && Valid(s')
      && target in s'.slots
      && s'.tracker[target] == current
      && |s'.events| > 0
      && s'.events[|s'.events| - 1] == ModelSet(s'.slots[target], model)
  {
    GetImagePresenterKeepsValid(s, target, current);
  }

  /** Attaching the same fingerprint twice: the second `finish` builds and clears
      nothing; its one effect is a second `setModel` on the presenter the first built. */
  lemma {:induction false} IdenticalReattach(s: Tracking, target: TargetId, current: Metadata,
                                              model1: ModelValue, model2: ModelValue)
    requires Valid(s)
    ensures var s1 := Finish(s, target, current, model1).value;
      var s2 := Finish(s1, target, current, model2).value;
      && s2.built == s1.built && s2.cleared == s1.cleared
      && s2.slots == s1.slots && s2.tracker == s1.tracker
      && s2.events == s1.events + [ModelSet(s1.slots[target], model2)]
  {
    FinishKeepsValid(s, target, current, model1);
    var s1 := Finish(s, target, current, model1).value;
    ReusePath(s1, target, current);
  }

  /** Attaching fingerprint `a` and then a different fingerprint `b` to a target: the
      second `finish` clears the first presenter, then builds a second one, then sets
      the model on it, in that order and with nothing else in between. */
  lemma {:induction false} ReplacementClearsFirst(s: Tracking, target: TargetId, a: Metadata, b: Metadata,
                                                   model1: ModelValue, model2: ModelValue)
    requires Valid(s)
    requires a != b
    ensures var s1 := Finish(s, target, a, model1).value;
      var s2 := Finish(s1, target, b, model2).value;
      var first := s1.slots[target];
      var second := s2.slots[target];
      && first != second
      && second == s1.built
      && s2.events == s1.events + [Cleared(first), Built(second, target), ModelSet(second, model2)]
      && first in s2.cleared && second !in s2.cleared
  {
    FinishKeepsValid(s, target, a, model1);
    var s1 := Finish(s, target, a, model1).value;
    ReplacePath(s1, target, b);
    FinishKeepsValid(s1, target, b, model2);
    assert s1.slots[target] in s1.origin;
  }

  // ---------------------------------------------------------------------------
  // cancel

  /** `cancel` answers true exactly when the target holds a presenter, clears that
      presenter in that case, and leaves every slot and the tracker as they were. */
  lemma CancelSemantics(s: Tracking, target: TargetId)
    ensures var (s', cancelled) := Cancel(s, target);
      && (cancelled <==> target in s.slots)
      && s'.slots == s.slots && s'.tracker == s.tracker && s'.built == s.built
      && (cancelled ==> s'.cleared == s.cleared + {s.slots[target]}
                        && s'.events == s.events + [Cleared(s.slots[target])])
      && (!cancelled ==> s' == s)
  {
  }

  lemma CancelKeepsValid(s: Tracking, target: TargetId)
    requires Valid(s)
    ensures Valid(Cancel(s, target).0)
  {
  }

  /** As written, `cancel` is not idempotent in its answer: a target that was ever
      attached answers true to every `cancel`, and its presenter is cleared each time. */
  lemma {:induction false} CancelTwiceAnswersTrue(s: Tracking, target: TargetId, current: Metadata, model: ModelValue)
    requires Valid(s)
    ensures var s1 := Finish(s, target, current, model).value;
      var (s2, first) := Cancel(s1, target);
      var (s3, second) := Cancel(s2, target);
      && first && second
      && s3.events == s1.events + [Cleared(s1.slots[target]), Cleared(s1.slots[target])]
  {
    FinishKeepsValid(s, target, current, model);
  }

  /** As written, after `cancel` an identical request reuses the cleared presenter: it
      builds nothing and calls `setModel` on a presenter whose `clear()` has run. */
  lemma {:induction false} CancelThenReattachReusesCleared(s: Tracking, target: TargetId, current: Metadata,
                                                            model1: ModelValue, model2: ModelValue)
    requires Valid(s)
    ensures var s1 := Finish(s, target, current, model1).value;
      var s2 := Cancel(s1, target).0;
      var s3 := Finish(s2, target, current, model2).value;
      var p := s1.slots[target];
      && s3.built == s1.built
      && s3.slots[target] == p
      && p in s3.cleared
      && s3.events == s1.events + [Cleared(p), ModelSet(p, model2)]
  {
    FinishKeepsValid(s, target, current, model1);
    var s1 := Finish(s, target, current, model1).value;
    CancelKeepsValid(s1, target);
    var s2 := Cancel(s1, target).0;
    ReusePath(s2, target, current);
  }

  // ---------------------------------------------------------------------------
  // consequences of the invariant

  /** At most one live presenter per target: two presenters built for the same target
      that have both not been cleared are the same presenter. */
  lemma AtMostOneLivePresenter(s: Tracking, p: PresenterId, q: PresenterId)
    requires Valid(s)
    requires p in s.origin && q in s.origin && p !in s.cleared && q !in s.cleared
    requires s.origin[p].target == s.origin[q].target
    ensures p == q
  {
    assert Bound(s, p) && Bound(s, q);
  }

  /** The fingerprint recorded for a target is the one its presenter was built under. */
  lemma RecordedFingerprintMatches(s: Tracking, target: TargetId)
    requires Valid(s)
    requires target in s.tracker
    ensures target in s.slots
    ensures s.origin[s.slots[target]] == Origin(target, s.tracker[target])
  {
  }
}

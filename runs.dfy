/**
 * Properties of the wizard over one event and over whole runs of events: which calls
 * each event makes, what a failed response leaves behind, and what stays true however
 * clicks and responses interleave.
 */
module Runs {
  import opened Wrappers
  import opened Records
  import opened Wizard

  /** The ids of the `deleteHeadshot` calls among some effects, in order. */
  function DeletesIn(effects: seq<Effect>): seq<Id>
    decreases |effects|
  {
    if effects == [] then []
    else (if effects[0].DeleteHeadshot? then [effects[0].headshotId] else []) + DeletesIn(effects[1..])
  }

  /** The `createHeadshot` calls among some effects, in order. */
  function CreatesIn(effects: seq<Effect>): seq<Effect>
    decreases |effects|
  {
    if effects == [] then []
    else (if effects[0].CreateHeadshot? then [effects[0]] else []) + CreatesIn(effects[1..])
  }

  lemma {:induction false} DeletesInAppend(a: seq<Effect>, b: seq<Effect>)
    ensures DeletesIn(a + b) == DeletesIn(a) + DeletesIn(b)
  {
    if a == [] {
      assert a + b == b;
    } else {
      assert (a + b)[0] == a[0];
      assert (a + b)[1..] == a[1..] + b;
      DeletesInAppend(a[1..], b);
    }
  }

  lemma {:induction false} CreatesInAppend(a: seq<Effect>, b: seq<Effect>)
    ensures CreatesIn(a + b) == CreatesIn(a) + CreatesIn(b)
  {
    if a == [] {
      assert a + b == b;
    } else {
      assert (a + b)[0] == a[0];
      assert (a + b)[1..] == a[1..] + b;
      CreatesInAppend(a[1..], b);
    }
  }

  lemma {:induction false} DeletesInNone(effects: seq<Effect>)
    requires forall k :: 0 <= k < |effects| ==> !effects[k].DeleteHeadshot?
    ensures DeletesIn(effects) == []
    decreases |effects|
  {
    if effects != [] {
      assert forall k :: 1 <= k < |effects| ==> effects[1..][k - 1] == effects[k];
      DeletesInNone(effects[1..]);
    }
  }

  lemma {:induction false} CreatesInNone(effects: seq<Effect>)
    requires forall k :: 0 <= k < |effects| ==> !effects[k].CreateHeadshot?
    ensures CreatesIn(effects) == []
    decreases |effects|
  {
    if effects != [] {
      assert forall k :: 1 <= k < |effects| ==> effects[1..][k - 1] == effects[k];
      CreatesInNone(effects[1..]);
    }
  }

  /** Running an event and then the rest. */
  lemma RunCons(s: OrderState, e: Event, es: seq<Event>)
    ensures Run(s, [e] + es) ==
              var t := Handle(s, e);
              var r := Run(t.state, es);
              Transition(r.state, t.effects + r.effects)
  {
    assert ([e] + es)[0] == e;
    assert ([e] + es)[1..] == es;
  }

  /** An edit of `paid` through the generic field setter. */
  predicate SetsPaid(e: Event)
  {
    e.ChangeField? && e.assignment.SetPaid?
  }

  /** An edit of `headshot` through the generic field setter. */
  predicate SetsHeadshot(e: Event)
  {
    e.ChangeField? && e.assignment.SetHeadshot?
  }

  /** Going back into the info step with a draft held deletes exactly that draft, once;
      every other Back deletes nothing. */
  lemma BackDeletesHeldDraftOnce(s: OrderState)
    requires s.step > 0
    ensures DeletesIn(Back(s).effects) ==
              if s.step == 2 && s.headshot.Some? then [s.headshot.value.id] else []
    ensures Back(s).state.headshot == s.headshot
  {
    var t := Back(s);
    DeletesInAppend([t.effects[0]], t.effects[1..]);
    assert [t.effects[0]] + t.effects[1..] == t.effects;
    DeletesInNone([t.effects[0]]);
    if |t.effects| == 2 {
      assert t.effects[1..][1..] == [];
    } else {
      assert t.effects[1..] == [];
    }
  }

  /** As written, going back into the info step with a draft held throws instead of
      deleting it, after the new step has been persisted. */
  lemma BackAsWrittenKeepsDraft(s: OrderState)
    requires s.step == 2 && s.headshot.Some?
    ensures DeletesIn(BackAsWritten(s).effects) == []
    ensures BackAsWritten(s).effects == [Persist(s.(step := 1)), ReferenceError("handleCreateHeadshot")]
  {
    DeletesInNone(BackAsWritten(s).effects);
  }

  /** A draft is requested only by Next at the info step, exactly once, with the email,
      file name and tier held at the click and the status Draft. */
  lemma DraftRequestedOnlyFromInfoStep(s: OrderState, e: Event)
    ensures CreatesIn(Handle(s, e).effects) ==
              if e == ClickNext && s.step == 1
              then [CreateHeadshot(s.email, s.fileName, s.quantityId, DraftStatus)]
              else []
  {
    var effects := Handle(s, e).effects;
    if e == ClickNext && s.step == 1 {
      assert effects[1..] == [];
    } else {
      CreatesInNone(effects);
    }
  }

  /** Failed draft, checkout and payment responses change nothing and call nothing. */
  lemma FailedResponsesChangeNothing(s: OrderState, e: Event)
    requires (e.HeadshotCreated? && e.isFailed) || e == CheckoutDone(true) || e == PaymentDone(true)
    ensures Handle(s, e) == Transition(s, [])
  {
  }

  /** The production response is stored whether or not the fetch failed. */
  lemma FetchIgnoresFailureFlag(s: OrderState, p: Option<ProductionData>)
    ensures Handle(s, ProductionFetched(p, true)) == Handle(s, ProductionFetched(p, false))
    ensures Handle(s, ProductionFetched(p, true)).state == s.(production := p, loading := false)
  {
  }

  /** Only a successful response, or an explicit edit of the field, clears `loading`. */
  lemma LoadingClearedOnlyByResponse(s: OrderState, e: Event)
    requires s.loading && !Handle(s, e).state.loading
    ensures e.ProductionFetched? || (e.HeadshotCreated? && !e.isFailed) || e == PaymentDone(false)
            || e == ChangeField(SetLoading(false))
  {
  }

  /** Every persisted snapshot is the state the event leaves, and every event that moves
      the step, other than the stepper and the field setter, persists that state. */
  lemma StepChangesArePersisted(s: OrderState, e: Event)
    ensures var t := Handle(s, e);
            forall k :: 0 <= k < |t.effects| && t.effects[k].Persist? ==> t.effects[k].snapshot == t.state
    ensures var t := Handle(s, e);
            !e.ChangeStep? && !e.ChangeField? && t.state.step != s.step ==> Persist(t.state) in t.effects
  {
  }

  /** Once the order is paid, Next away from the info step advances and leaves the
      wizard for the listing; before it is paid, Next never leaves. */
  lemma NextLeavesOnlyWhenPaid(s: OrderState)
    ensures Navigate(Productions, None) in Next(s).effects <==> s.paid && s.step != 1
  {
  }

  /** Along any run that does not set `paid` by hand, the order ends paid exactly when it
      started paid or some payment in the run succeeded: nothing clears it. */
  lemma {:induction false} PaidOnlyByPayment(s: OrderState, es: seq<Event>)
    requires forall i :: 0 <= i < |es| ==> !SetsPaid(es[i])
    ensures Run(s, es).state.paid <==> s.paid || exists i :: 0 <= i < |es| && es[i] == PaymentDone(false)
    decreases |es|
  {
    if es != [] {
      var t := Handle(s, es[0]);
      assert t.state.paid <==> s.paid || es[0] == PaymentDone(false);
      assert forall i :: 1 <= i < |es| ==> es[1..][i - 1] == es[i];
      PaidOnlyByPayment(t.state, es[1..]);
      if Run(s, es).state.paid && !s.paid && es[0] != PaymentDone(false) {
        var i :| 0 <= i < |es[1..]| && es[1..][i] == PaymentDone(false);
        assert es[i + 1] == PaymentDone(false);
      }
    }
  }

  /** The draft held after a sequence of responses: the last one created successfully,
      or the one held before when none was. */
  function LastCreated(held: Option<Headshot>, es: seq<Event>): Option<Headshot>
    decreases |es|
  {
    if es == [] then held
    else LastCreated(if es[0].HeadshotCreated? && !es[0].isFailed then Some(es[0].response) else held, es[1..])
  }

  /** The ids of the drafts created successfully along a run. */
  function CreatedIds(es: seq<Event>): set<Id>
    decreases |es|
  {
    if es == [] then {}
    else (if es[0].HeadshotCreated? && !es[0].isFailed then {es[0].response.id} else {}) + CreatedIds(es[1..])
  }

  function IdsOf(h: Option<Headshot>): set<Id>
  {
    if h.Some? then {h.value.id} else {}
  }

  /** Along any run that does not set `headshot` by hand, the draft held at the end is
      the last one the gateway created; going back never drops it. */
  lemma {:induction false} HeldDraftIsLastCreated(s: OrderState, es: seq<Event>)
    requires forall i :: 0 <= i < |es| ==> !SetsHeadshot(es[i])
    ensures Run(s, es).state.headshot == LastCreated(s.headshot, es)
    decreases |es|
  {
    if es != [] {
      var t := Handle(s, es[0]);
      assert t.state.headshot == if es[0].HeadshotCreated? && !es[0].isFailed then Some(es[0].response) else s.headshot;
      assert forall i :: 1 <= i < |es| ==> es[1..][i - 1] == es[i];
      HeldDraftIsLastCreated(t.state, es[1..]);
    }
  }

  /** One event deletes at most the draft it finds held. */
  lemma DeletesOnlyHeldDraft(s: OrderState, e: Event)
    ensures forall id :: id in DeletesIn(Handle(s, e).effects) ==> id in IdsOf(s.headshot)
  {
    if e == ClickBack && BackEnabled(s) {
      BackDeletesHeldDraftOnce(s);
    } else {
      DeletesInNone(Handle(s, e).effects);
    }
  }

  /** Along any run that does not set `headshot` by hand, the wizard deletes only drafts
      that it held at the start or that the gateway created during the run. */
  lemma {:induction false} DeletesOnlyKnownDrafts(s: OrderState, es: seq<Event>)
    requires forall i :: 0 <= i < |es| ==> !SetsHeadshot(es[i])
    ensures forall id :: id in DeletesIn(Run(s, es).effects) ==> id in IdsOf(s.headshot) + CreatedIds(es)
    decreases |es|
  {
    if es != [] {
      var t := Handle(s, es[0]);
      var r := Run(t.state, es[1..]);
      DeletesOnlyHeldDraft(s, es[0]);
      HeldDraftIsLastCreated(s, [es[0]]);
      assert [es[0]][1..] == [];
      assert IdsOf(t.state.headshot) <= IdsOf(s.headshot) + CreatedIds(es);
      assert forall i :: 1 <= i < |es| ==> es[1..][i - 1] == es[i];
      DeletesOnlyKnownDrafts(t.state, es[1..]);
      DeletesInAppend(t.effects, r.effects);
    }
  }

  /** A failed draft creation after Next at the info step leaves the step and the draft as
      they were and `loading` set for good. */
  lemma FailedDraftLeavesLoading(s: OrderState, h: Headshot)
    requires s.step == 1
    ensures Run(s, [ClickNext, HeadshotCreated(h, true)]) ==
              Transition(s.(loading := true), [CreateHeadshot(s.email, s.fileName, s.quantityId, DraftStatus)])
  {
    var s1 := Next(s).state;
    RunCons(s, ClickNext, [HeadshotCreated(h, true)]);
    RunCons(s1, HeadshotCreated(h, true), []);
    assert [ClickNext, HeadshotCreated(h, true)] == [ClickNext] + [HeadshotCreated(h, true)];
  }

  /** From the info step of an unpaid order: Next, draft created, Next past the gallery
      step, checkout and payment succeed, Finish. The order ends paid two steps past
      the review step, holding the draft, and the last call leaves for the listing. */
  lemma CheckoutHappyPath(s: OrderState, h: Headshot)
    requires s.step == 1 && !s.paid
    ensures var es := [ClickNext, HeadshotCreated(h, false), ClickNext, CheckoutDone(false), PaymentDone(false), ClickNext];
            var r := Run(s, es);
            r.state.step == 5 && r.state.paid && !r.state.loading && r.state.headshot == Some(h) &&
            r.effects[|r.effects| - 1] == Navigate(Productions, None)
  {
    var s2 := HeadshotResponse(Next(s).state, h, false).state;
    assert s2.step == 2 && !s2.paid && s2.headshot == Some(h);
    var es := [ClickNext, HeadshotCreated(h, false), ClickNext, CheckoutDone(false), PaymentDone(false), ClickNext];
    PayAndFinish(s2, h);
    RunSameEnd(Next(s).state, es[1..]);
    RunSameEnd(s, es);
    assert es[1..][1..] == [ClickNext, CheckoutDone(false), PaymentDone(false), ClickNext];
  }

  /** The second half of the happy path, from the gallery step with a draft held. */
  lemma PayAndFinish(s: OrderState, h: Headshot)
    requires s.step == 2 && !s.paid && s.headshot == Some(h)
    ensures var r := Run(s, [ClickNext, CheckoutDone(false), PaymentDone(false), ClickNext]);
            r.state.step == 5 && r.state.paid && !r.state.loading && r.state.headshot == Some(h) &&
            r.effects != [] && r.effects[|r.effects| - 1] == Navigate(Productions, None)
  {
    var es := [ClickNext, CheckoutDone(false), PaymentDone(false), ClickNext];
    var s3 := Next(s).state;
    var s4 := CheckoutResponse(s3, false).state;
    var s5 := PaymentResponse(s4, false).state;
    assert s5.step == 4 && s5.paid && !s5.loading && s5.headshot == Some(h);
    RunCons(s5, ClickNext, []);
    assert es[3..] == [ClickNext] + [];
    RunSameEnd(s4, es[2..]);
    RunSameEnd(s3, es[1..]);
    RunSameEnd(s, es);
  }

  /** A run of several events ends where the run of all but the first, started from the
      first event's state, ends, and makes the same last call. */
  lemma RunSameEnd(s: OrderState, es: seq<Event>)
    requires |es| >= 2
    ensures var t := Handle(s, es[0]).state;
            Run(s, es).state == Run(t, es[1..]).state &&
            (Run(t, es[1..]).effects != [] ==>
               Run(s, es).effects[|Run(s, es).effects| - 1] == Run(t, es[1..]).effects[|Run(t, es[1..]).effects| - 1])
  {
  }
}

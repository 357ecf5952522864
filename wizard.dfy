/**
 * The checkout wizard's transitions on values: each handler of the component, together
 * with its `setState` callback, as one step from an order state to the next state and
 * the collaborator calls it makes. The `Production` class performs the same steps on
 * its fields; these functions are what its methods are proved against.
 */
module Wizard {
  import opened Wrappers
  import opened Records

  /** The state after a handler, and the calls it made, in order. */
  datatype Transition = Transition(state: OrderState, effects: seq<Effect>)

  /** Everything that can drive the wizard: clicks and field edits from its views,
      and the responses of the gateway calls. */
  datatype Event =
    | ClickNext
    | ClickBack
    | ClickReset
    | ClickGallery(productionId: Id)
    | ChangeQuantity(quantityId: Option<Id>)
    | ChangeOrder(order: Option<Order>)
    | ChangeStep(step: nat)
    | ChangeField(assignment: Assignment)
    | ProductionFetched(production: Option<ProductionData>, fetchFailed: bool)
    | HeadshotCreated(response: Headshot, isFailed: bool)
    | CheckoutDone(checkoutFailed: bool)
    | PaymentDone(paymentFailed: bool)

  /** No entry of the list names the key. */
  predicate Unnamed(seed: seq<Assignment>, f: Field)
  {
    forall i :: 0 <= i < |seed| ==> KeyOf(seed[i]) != f
  }

  /** `componentWillMount`: loading, at step 0, with no draft, then every entry of the
      persisted order merged over those defaults in order. */
  function Mount(seed: seq<Assignment>): (r: OrderState)
    ensures Unnamed(seed, LoadingKey) ==> r.loading
    ensures Unnamed(seed, StepKey) ==> r.step == 0
    ensures Unnamed(seed, HeadshotKey) ==> r.headshot.None?
    ensures Unnamed(seed, PaidKey) ==> !r.paid
    ensures forall f :: f !in {LoadingKey, StepKey, HeadshotKey} && Unnamed(seed, f) ==> Current(r, f) == Current(Initial(), f)
    ensures r == ApplyAll(Initial().(loading := true, step := 0, headshot := None), seed)
  {
    var d := Initial().(loading := true, step := 0, headshot := None);
    assert SameExcept(Initial(), d, {LoadingKey, StepKey, HeadshotKey});
    assert Current(ApplyAll(d, seed), LoadingKey) == Current(d, LoadingKey) || !Unnamed(seed, LoadingKey);
    assert Current(ApplyAll(d, seed), StepKey) == Current(d, StepKey) || !Unnamed(seed, StepKey);
    assert Current(ApplyAll(d, seed), HeadshotKey) == Current(d, HeadshotKey) || !Unnamed(seed, HeadshotKey);
    assert Current(ApplyAll(d, seed), PaidKey) == Current(d, PaidKey) || !Unnamed(seed, PaidKey);
    ApplyAll(d, seed)
  }

  /** The entries of an object spread into `setState`, applied left to right. A key no
      entry names keeps its value. */
  function ApplyAll(s: OrderState, seed: seq<Assignment>): (r: OrderState)
    ensures forall f :: Unnamed(seed, f) ==> Current(r, f) == Current(s, f)
    decreases |seed|
  {
    if seed == [] then s
    else
      assert forall f :: Unnamed(seed, f) ==> Unnamed(seed[1..], f) && KeyOf(seed[0]) != f;
      ApplyAll(Assign(s, seed[0]), seed[1..])
  }

  /** Merging one more entry is assigning it after the rest. */
  lemma {:induction false} ApplyAllSnoc(s: OrderState, seed: seq<Assignment>, a: Assignment)
    ensures ApplyAll(s, seed + [a]) == Assign(ApplyAll(s, seed), a)
    decreases |seed|
  {
    if seed == [] {
      assert [a][1..] == [];
    } else {
      assert (seed + [a])[0] == seed[0];
      assert (seed + [a])[1..] == seed[1..] + [a];
      ApplyAllSnoc(Assign(s, seed[0]), seed[1..], a);
    }
  }

  /** A key named by the list ends with the value of the last entry that names it. */
  lemma {:induction false} ApplyAllLastWins(s: OrderState, seed: seq<Assignment>, i: nat)
    requires i < |seed|
    requires forall j :: i < j < |seed| ==> KeyOf(seed[j]) != KeyOf(seed[i])
    ensures Current(ApplyAll(s, seed), KeyOf(seed[i])) == seed[i]
    decreases |seed|
  {
    if i == 0 {
      assert Unnamed(seed[1..], KeyOf(seed[0])) by {
        forall j | 0 <= j < |seed[1..]| ensures KeyOf(seed[1..][j]) != KeyOf(seed[0]) {
          assert seed[1..][j] == seed[j + 1];
        }
      }
    } else {
      assert forall j :: i - 1 < j < |seed[1..]| ==> seed[1..][j] == seed[j + 1];
      ApplyAllLastWins(Assign(s, seed[0]), seed[1..], i - 1);
    }
  }

  /** A key the persisted order names ends mounted with the value of its last entry. */
  lemma MountRestoresPersisted(seed: seq<Assignment>, i: nat)
    requires i < |seed|
    requires forall j :: i < j < |seed| ==> KeyOf(seed[j]) != KeyOf(seed[i])
    ensures Current(Mount(seed), KeyOf(seed[i])) == seed[i]
  {
    ApplyAllLastWins(Initial().(loading := true, step := 0, headshot := None), seed, i);
  }

  /** `handleNext`. At the info step (1) it sets `loading` and requests a draft headshot
      from the current email, file name and tier. Anywhere else it advances the step,
      persists, and if the order was already paid when clicked, leaves for the listing. */
  function Next(s: OrderState): (t: Transition)
    ensures SameExcept(s, t.state, {LoadingKey, StepKey})
    ensures s.step == 1 ==> t.state.step == 1 && t.state.loading
                            && t.effects == [CreateHeadshot(s.email, s.fileName, s.quantityId, DraftStatus)]
    ensures s.step != 1 ==> t.state.step == s.step + 1 && t.state.loading == s.loading
                            && |t.effects| >= 1 && t.effects[0] == Persist(t.state)
                            && (Navigate(Productions, None) in t.effects <==> s.paid)
    ensures s.step != 1 ==> t.effects == [Persist(t.state)] + (if s.paid then [Navigate(Productions, None)] else [])
  {
    if s.step == 1 then
      Transition(s.(loading := true), [CreateHeadshot(s.email, s.fileName, s.quantityId, DraftStatus)])
    else
      var t := s.(step := s.step + 1);
      Transition(t, [Persist(t)] + if s.paid then [Navigate(Productions, None)] else [])
  }

  /** `handleBack` as intended: step back, persist, and on arriving at the info step
      delete the draft headshot if one is held. The draft is not cleared. */
  function Back(s: OrderState): (t: Transition)
    requires s.step > 0
    ensures SameExcept(s, t.state, {StepKey}) && t.state.step == s.step - 1
    ensures |t.effects| >= 1 && t.effects[0] == Persist(t.state)
    ensures DeleteHeadshot(s.headshot.value.id) in t.effects <== s.step == 2 && s.headshot.Some?
    ensures forall k :: 1 <= k < |t.effects| ==>
              s.step == 2 && s.headshot.Some? && t.effects[k] == DeleteHeadshot(s.headshot.value.id)
  {
    var t := s.(step := s.step - 1);
    Transition(t, [Persist(t)] + if t.step == 1 && t.headshot.Some? then [DeleteHeadshot(t.headshot.value.id)] else [])
  }

  /** `handleBack` as written: the argument `handleCreateHeadshot` names no binding in
      scope, so evaluating the delete call's arguments throws before the call is made. */
  function BackAsWritten(s: OrderState): (t: Transition)
    requires s.step > 0
    ensures SameExcept(s, t.state, {StepKey}) && t.state.step == s.step - 1
    ensures |t.effects| >= 1 && t.effects[0] == Persist(t.state)
    ensures forall k :: 0 <= k < |t.effects| ==> !t.effects[k].DeleteHeadshot?
    ensures ReferenceError("handleCreateHeadshot") in t.effects <==> s.step == 2 && s.headshot.Some?
    ensures t.effects == [Persist(t.state)] + (if s.step == 2 && s.headshot.Some? then [ReferenceError("handleCreateHeadshot")] else [])
  {
    var t := s.(step := s.step - 1);
    Transition(t, [Persist(t)] + if t.step == 1 && t.headshot.Some? then [ReferenceError("handleCreateHeadshot")] else [])
  }

  /** `handleReset`: back to step 0, persisted. */
  function Reset(s: OrderState): (t: Transition)
    ensures SameExcept(s, t.state, {StepKey}) && t.state.step == 0
    ensures t.effects == [Persist(t.state)]
  {
    var t := s.(step := 0);
    Transition(t, [Persist(t)])
  }

  /** `handleCreateHeadshot`: on success store the draft, clear `loading`, advance, persist. */
  function HeadshotResponse(s: OrderState, response: Headshot, isFailed: bool): (t: Transition)
    ensures isFailed ==> t == Transition(s, [])
    ensures !isFailed ==> SameExcept(s, t.state, {LoadingKey, HeadshotKey, StepKey})
                          && !t.state.loading && t.state.headshot == Some(response) && t.state.step == s.step + 1
                          && t.effects == [Persist(t.state)]
  {
    if isFailed then Transition(s, [])
    else
      var t := s.(loading := false, headshot := Some(response), step := s.step + 1);
      Transition(t, [Persist(t)])
  }

  /** `handleCheckout`: on success mark a payment as in progress and persist. */
  function CheckoutResponse(s: OrderState, isFailed: bool): (t: Transition)
    ensures isFailed ==> t == Transition(s, [])
    ensures !isFailed ==> SameExcept(s, t.state, {LoadingKey}) && t.state.loading && t.effects == [Persist(t.state)]
  {
    if isFailed then Transition(s, [])
    else
      var t := s.(loading := true);
      Transition(t, [Persist(t)])
  }

  /** `handlePayment`: on success clear `loading`, mark paid, advance, persist. */
  function PaymentResponse(s: OrderState, isFailed: bool): (t: Transition)
    ensures isFailed ==> t == Transition(s, [])
    ensures !isFailed ==> SameExcept(s, t.state, {LoadingKey, PaidKey, StepKey})
                          && !t.state.loading && t.state.paid && t.state.step == s.step + 1
                          && t.effects == [Persist(t.state)]
  {
    if isFailed then Transition(s, [])
    else
      var t := s.(loading := false, paid := true, step := s.step + 1);
      Transition(t, [Persist(t)])
  }

  /** `handleGetProductionResponse`: store whatever came back and clear `loading`; the
      failure flag is not consulted. */
  function ProductionResponse(s: OrderState, production: Option<ProductionData>, isFailed: bool): (t: Transition)
    ensures SameExcept(s, t.state, {ProductionKey, LoadingKey})
    ensures t.state.production == production && !t.state.loading && t.effects == []
  {
    Transition(s.(production := production, loading := false), [])
  }

  /** Back is disabled at step 0, so a click there reaches no handler. */
  predicate BackEnabled(s: OrderState)
  {
    s.step != 0
  }

  /** The keys only the user-info view edits, through the generic field setter. */
  const InfoKeys: set<Field> := {HasImageKey, UploadImageUrlKey, FileNameKey, EmailKey}

  /** The handler an event reaches, applied to the state. */
  function Handle(s: OrderState, e: Event): (t: Transition)
    ensures !e.ChangeField? ==> forall f :: f in InfoKeys ==> Current(t.state, f) == Current(s, f)
    ensures e == ClickBack && !BackEnabled(s) ==> t == Transition(s, [])
  {
    match e
    case ClickNext => Next(s)
    case ClickBack => if BackEnabled(s) then Back(s) else Transition(s, [])
    case ClickReset => Reset(s)
    case ClickGallery(id) => Transition(s, [Navigate(Imagemap, Some(id))])
    case ChangeQuantity(q) => Transition(Assign(s, SetQuantityId(q)), [])
    case ChangeOrder(o) => Transition(Assign(s, SetOrder(o)), [])
    case ChangeStep(n) => Transition(Assign(s, SetStep(n)), [])
    case ChangeField(a) => Transition(Assign(s, a), [])
    case ProductionFetched(p, failed) => ProductionResponse(s, p, failed)
    case HeadshotCreated(h, failed) => HeadshotResponse(s, h, failed)
    case CheckoutDone(failed) => CheckoutResponse(s, failed)
    case PaymentDone(failed) => PaymentResponse(s, failed)
  }

  /** A sequence of events handled one after another; the calls are concatenated. */
  function Run(s: OrderState, es: seq<Event>): (r: Transition)
    ensures (forall i :: 0 <= i < |es| ==> !es[i].ChangeField?) ==>
              forall f :: f in InfoKeys ==> Current(r.state, f) == Current(s, f)
    decreases |es|
  {
    if es == [] then Transition(s, [])
    else
      var t := Handle(s, es[0]);
      assert forall i :: 1 <= i < |es| ==> es[1..][i - 1] == es[i];
      var r := Run(t.state, es[1..]);
      Transition(r.state, t.effects + r.effects)
  }
}

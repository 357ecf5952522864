/**
 * What the component shows for an order state: the body chosen by `renderStepForm`,
 * the Back control, the primary control (payment, Next or Finish), and the spinner
 * shown until the production and its tiers have arrived.
 */
module View {
  import opened Wrappers
  import opened Records
  import opened Quantities
  import opened Wizard

  /** The body of one wizard step. Step 2 is no view: rendering it asks the host to
      switch to the image gallery for this production. */
  datatype StepView =
    | SelectQuantity(production: ProductionData, quantityId: Option<Id>, order: Option<Order>)
    | UserInfo(hasImage: bool)
    | GoToImagemap(productionId: Id)
    | Review

  /** `renderStepForm`: dispatch on the step. */
  function RenderStepForm(s: OrderState): (v: StepView)
    requires s.production.Some?
    ensures v.SelectQuantity? <==> s.step == 0
    ensures v.UserInfo? <==> s.step == 1
    ensures v.GoToImagemap? <==> s.step == 2
    ensures v.Review? <==> s.step >= 3
    ensures v.SelectQuantity? ==> v.production == s.production.value && v.quantityId == s.quantityId && v.order == s.order
    ensures v.UserInfo? ==> v.hasImage == s.hasImage
    ensures v.GoToImagemap? ==> v.productionId == s.production.value.id
  {
    match s.step
    case 0 => SelectQuantity(s.production.value, s.quantityId, s.order)
    case 1 => UserInfo(s.hasImage)
    case 2 => GoToImagemap(s.production.value.id)
    case _ => Review
  }

  /** The control beside Back: the payment button, charging the selected price for the
      held draft, or a button that calls `handleNext`. */
  datatype Control = Checkout(headshot: Option<Headshot>, price: int) | Advance(caption: string)

  /** The payment button is shown exactly on the last of `stepCount` steps while unpaid;
      otherwise Next, which reads Finish once the order is paid. */
  function PrimaryControl(s: OrderState, stepCount: nat, price: int): (c: Control)
    ensures c.Checkout? <==> s.step == stepCount - 1 && !s.paid
    ensures c.Checkout? ==> c.headshot == s.headshot && c.price == price
    ensures c.Advance? ==> (c.caption == "Finish" <==> s.paid) && (c.caption == "Next" <==> !s.paid)
  {
    if s.step == stepCount - 1 && !s.paid then Checkout(s.headshot, price)
    else Advance(if s.paid then "Finish" else "Next")
  }

  /** The whole screen. */
  datatype Screen =
    | Spinner
    | Shown(title: string, backEnabled: bool, control: Control, stepperStep: nat, body: StepView)

  /** The wizard body is drawn once the production and its tier list are present. */
  predicate Loaded(s: OrderState)
  {
    Tiers(s.production).Some?
  }

  /** `render`, with `stepCount` the length of the step list. */
  function Render(s: OrderState, stepCount: nat): (v: Screen)
    ensures v.Spinner? <==> !Loaded(s)
    ensures v.Shown? ==> v.title == s.production.value.title && v.stepperStep == s.step
    ensures v.Shown? ==> (v.backEnabled <==> BackEnabled(s))
    ensures v.Shown? ==> v.control == PrimaryControl(s, stepCount, Select(s.production, s.quantityId).price)
                         && v.body == RenderStepForm(s)
  {
    if !Loaded(s) then Spinner
    else
      var selection := Select(s.production, s.quantityId);
      Shown(s.production.value.title, s.step != 0,
             PrimaryControl(s, stepCount, selection.price), s.step, RenderStepForm(s))
  }

  /** The payment button charges the price of the selected tier, and nothing when no
      tier of the loaded production is selected. */
  lemma CheckoutChargesSelectedTier(s: OrderState, stepCount: nat)
    requires Render(s, stepCount).Shown? && Render(s, stepCount).control.Checkout?
    ensures var qs := s.production.value.quantities.value;
            var c := Render(s, stepCount).control;
            c.headshot == s.headshot &&
            (Find(qs, s.quantityId).Some? ==> c.price == Find(qs, s.quantityId).value.plusPrice) &&
            (Find(qs, s.quantityId).None? ==> c.price == 0)
  {
  }

  /** A successful payment on the payment screen of a wizard of at least three steps
      leads to the review body with a Finish button, and Back stays enabled. */
  lemma PaymentLeadsToFinish(s: OrderState, stepCount: nat)
    requires stepCount >= 3
    requires Render(s, stepCount).Shown? && Render(s, stepCount).control.Checkout?
    ensures var v := Render(PaymentResponse(s, false).state, stepCount);
            v.Shown? && v.control == Advance("Finish") && v.body == Review && v.backEnabled
  {
  }

  /** A failed payment leaves the payment button in place, unchanged. */
  lemma FailedPaymentKeepsCheckout(s: OrderState, stepCount: nat)
    requires Render(s, stepCount).Shown? && Render(s, stepCount).control.Checkout?
    ensures Render(PaymentResponse(s, true).state, stepCount) == Render(s, stepCount)
  {
  }

  /** Clicking Finish away from the info step persists and leaves for the listing. */
  lemma FinishLeavesWizard(s: OrderState, stepCount: nat)
    requires Render(s, stepCount).Shown? && Render(s, stepCount).control == Advance("Finish")
    requires s.step != 1
    ensures Navigate(Productions, None) in Next(s).effects
    ensures Next(s).state.step == s.step + 1 && Next(s).state.paid
  {
  }

  /** After paying and going back to the info step, Finish requests a new draft instead
      of leaving the wizard. */
  lemma FinishAtInfoStepRequestsDraft(s: OrderState, stepCount: nat)
    requires Render(s, stepCount).Shown? && Render(s, stepCount).control == Advance("Finish")
    requires s.step == 1
    ensures Next(s).effects == [CreateHeadshot(s.email, s.fileName, s.quantityId, DraftStatus)]
    ensures Navigate(Productions, None) !in Next(s).effects
  {
  }
}

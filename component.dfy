/**
 * The `Production` component: the order state lives in fields that its handlers update
 * in place, and the calls it makes to the headshot gateway, the store and the host
 * menu are appended to a log instead of being performed. Each method is one handler
 * together with its `setState` callback.
 */
module ProductionComponent {
  import opened Wrappers
  import opened Records
  import Wizard

  class Production {
    var loading: bool
    var production: Option<ProductionData>
    var quantityId: Option<Id>
    var order: Option<Order>
    var step: nat
    var hasImage: bool
    var uploadImageUrl: Option<string>
    var fileName: string
    var email: string
    var headshot: Option<Headshot>
    var paid: bool

    /** The `productionId` prop. */
    const productionId: Id
    /** The gateway, store and menu calls made so far, in order. */
    ghost var effects: seq<Effect>

    /** The fields as one state record. */
    function State(): OrderState
      reads this
    {
      OrderState(loading, production, quantityId, order, step, hasImage, uploadImageUrl,
                 fileName, email, headshot, paid)
    }

    /** The new calls since a given length of the log. */
    ghost function EffectsSince(n: nat): seq<Effect>
      reads this
      requires n <= |effects|
    {
      effects[n..]
    }

    /** Field initialisers, then `componentWillMount`: loading at step 0 with no draft,
        the persisted order merged over that, and the production requested. */
    constructor (productionId: Id, seed: seq<Assignment>)
      ensures State() == Wizard.Mount(seed)
      ensures this.productionId == productionId
      ensures effects == [GetProduction(productionId)]
    {
      var s := Wizard.ApplyAll(Initial().(loading := true, step := 0, headshot := None), seed);
      this.productionId := productionId;
      loading, production, quantityId, order, step := s.loading, s.production, s.quantityId, s.order, s.step;
      hasImage, uploadImageUrl, fileName, email := s.hasImage, s.uploadImageUrl, s.fileName, s.email;
      headshot, paid := s.headshot, s.paid;
      effects := [GetProduction(productionId)];
    }

    /** `handleGetProductionResponse`. */
    method HandleGetProductionResponse(response: Option<ProductionData>, isFailed: bool)
      modifies this
      ensures State() == old(State()).(production := response, loading := false)
      ensures effects == old(effects)
      ensures Wizard.Handle(old(State()), Wizard.ProductionFetched(response, isFailed)) == Wizard.Transition(State(), [])
    {
      production, loading := response, false;
    }

    /** `handleClickGallery`. */
    method HandleClickGallery(id: Id)
      modifies this
      ensures State() == old(State())
      ensures effects == old(effects) + [Navigate(Imagemap, Some(id))]
      ensures Wizard.Handle(old(State()), Wizard.ClickGallery(id)) == Wizard.Transition(State(), EffectsSince(|old(effects)|))
    {
      effects := effects + [Navigate(Imagemap, Some(id))];
    }

    /** `handleChangeOrder`. */
    method HandleChangeOrder(o: Option<Order>)
      modifies this
      ensures State() == old(State()).(order := o)
      ensures effects == old(effects)
      ensures Wizard.Handle(old(State()), Wizard.ChangeOrder(o)) == Wizard.Transition(State(), [])
    {
      order := o;
    }

    /** `handleChangeQuantity`. */
    method HandleChangeQuantity(q: Option<Id>)
      modifies this
      ensures State() == old(State()).(quantityId := q)
      ensures effects == old(effects)
      ensures Wizard.Handle(old(State()), Wizard.ChangeQuantity(q)) == Wizard.Transition(State(), [])
    {
      quantityId := q;
    }

    /** `handleChangeStep`: the stepper jumps to a step without persisting. */
    method HandleChangeStep(n: nat)
      modifies this
      ensures State() == old(State()).(step := n)
      ensures effects == old(effects)
      ensures Wizard.Handle(old(State()), Wizard.ChangeStep(n)) == Wizard.Transition(State(), [])
    {
      step := n;
    }

    /** `handleChange(name, value)`: the named field takes the value. */
    method HandleChange(a: Assignment)
      modifies this
      ensures State() == Assign(old(State()), a)
      ensures effects == old(effects)
      ensures Wizard.Handle(old(State()), Wizard.ChangeField(a)) == Wizard.Transition(State(), [])
    {
      match a
      case SetLoading(v) => loading := v;
      case SetProduction(v) => production := v;
      case SetQuantityId(v) => quantityId := v;
      case SetOrder(v) => order := v;
      case SetStep(v) => step := v;
      case SetHasImage(v) => hasImage := v;
      case SetUploadImageUrl(v) => uploadImageUrl := v;
      case SetFileName(v) => fileName := v;
      case SetEmail(v) => email := v;
      case SetHeadshot(v) => headshot := v;
      case SetPaid(v) => paid := v;
      case SetOther(_) =>
    }

    /** `handleNext`. */
    method HandleNext()
      modifies this
      ensures old(step) == 1 ==>
                State() == old(State()).(loading := true) &&
                effects == old(effects) + [CreateHeadshot(old(email), old(fileName), old(quantityId), DraftStatus)]
      ensures old(step) != 1 ==>
                State() == old(State()).(step := old(step) + 1) &&
                effects == old(effects) + [Persist(State())] + (if old(paid) then [Navigate(Productions, None)] else [])
      ensures Wizard.Handle(old(State()), Wizard.ClickNext) == Wizard.Transition(State(), EffectsSince(|old(effects)|))
    {
      var wasPaid := paid;
      if step == 1 {
        loading := true;
        effects := effects + [CreateHeadshot(email, fileName, quantityId, DraftStatus)];
      } else {
        step := step + 1;
        effects := effects + [Persist(State())];
        if wasPaid {
          effects := effects + [Navigate(Productions, None)];
        }
      }
    }

    /** `handleBack`, with the draft deleted on arriving at the info step. Back is
        disabled at step 0. */
    method HandleBack()
      requires step > 0
      modifies this
      ensures State() == old(State()).(step := old(step) - 1)
      ensures effects == old(effects) + [Persist(State())] +
                (if step == 1 && headshot.Some? then [DeleteHeadshot(headshot.value.id)] else [])
      ensures Wizard.Handle(old(State()), Wizard.ClickBack) == Wizard.Transition(State(), EffectsSince(|old(effects)|))
    {
      step := step - 1;
      effects := effects + [Persist(State())];
      if step == 1 {
        if headshot.Some? {
          effects := effects + [DeleteHeadshot(headshot.value.id)];
        }
      }
    }

    /** `handleReset`. */
    method HandleReset()
      modifies this
      ensures State() == old(State()).(step := 0)
      ensures effects == old(effects) + [Persist(State())]
      ensures Wizard.Handle(old(State()), Wizard.ClickReset) == Wizard.Transition(State(), EffectsSince(|old(effects)|))
    {
      step := 0;
      effects := effects + [Persist(State())];
    }

    /** `handleCreateHeadshot`. */
    method HandleCreateHeadshot(response: Headshot, isFailed: bool)
      modifies this
      ensures isFailed ==> State() == old(State()) && effects == old(effects)
      ensures !isFailed ==>
                State() == old(State()).(loading := false, headshot := Some(response), step := old(step) + 1) &&
                effects == old(effects) + [Persist(State())]
      ensures Wizard.Handle(old(State()), Wizard.HeadshotCreated(response, isFailed)) == Wizard.Transition(State(), EffectsSince(|old(effects)|))
    {
      if !isFailed {
        loading, headshot, step := false, Some(response), step + 1;
        effects := effects + [Persist(State())];
      }
    }

    /** `handleCheckout`; the token is not kept. */
    method HandleCheckout(isFailed: bool)
      modifies this
      ensures isFailed ==> State() == old(State()) && effects == old(effects)
      ensures !isFailed ==> State() == old(State()).(loading := true) && effects == old(effects) + [Persist(State())]
      ensures Wizard.Handle(old(State()), Wizard.CheckoutDone(isFailed)) == Wizard.Transition(State(), EffectsSince(|old(effects)|))
    {
      if !isFailed {
        loading := true;
        effects := effects + [Persist(State())];
      }
    }

    /** `handlePayment`; the response is not kept. */
    method HandlePayment(isFailed: bool)
      modifies this
      ensures isFailed ==> State() == old(State()) && effects == old(effects)
      ensures !isFailed ==>
                State() == old(State()).(loading := false, paid := true, step := old(step) + 1) &&
                effects == old(effects) + [Persist(State())]
      ensures Wizard.Handle(old(State()), Wizard.PaymentDone(isFailed)) == Wizard.Transition(State(), EffectsSince(|old(effects)|))
    {
      if !isFailed {
        loading, paid, step := false, true, step + 1;
        effects := effects + [Persist(State())];
      }
    }
  }

  /** A whole session driven through the handlers: mount with nothing persisted, the
      production arrives, a tier is chosen, Next to the info step, the draft is created,
      Next past the gallery step, checkout and payment succeed, Finish. */
  method CheckoutSession(productionId: Id, p: ProductionData, q: Id, h: Headshot) returns (final: OrderState)
    ensures final.paid && !final.loading && final.step == 5
    ensures final.headshot == Some(h) && final.quantityId == Some(q) && final.production == Some(p)
  {
    var c := new Production(productionId, []);
    c.HandleGetProductionResponse(Some(p), false);
    c.HandleChangeQuantity(Some(q));
    c.HandleNext();
    c.HandleNext();
    c.HandleCreateHeadshot(h, false);
    c.HandleNext();
    c.HandleCheckout(false);
    c.HandlePayment(false);
    c.HandleNext();
    final := c.State();
  }
}

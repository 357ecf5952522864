/**
 * The values the checkout wizard of a headshot production works on: the production
 * fetched from the gateway, its pricing tiers, the draft headshot record, the
 * component's order state and the calls it makes to its collaborators.
 */
module Records {
  import opened Wrappers

  /** Identifiers of productions, pricing tiers and headshots as the gateway returns them. */
  type Id = string

  /** One entry of `production_quantities`: a tier of `amount` photos at an extra price.
      `plusPrice` stands for `parseFloat(plus_price)`, written in whole cents. */
  datatype ProductionQuantity = ProductionQuantity(id: Id, amount: int, plusPrice: int)

  /** A production as `getProduction` returns it; `quantities` is `None` while the
      response carries no `production_quantities`. */
  datatype ProductionData = ProductionData(
    id: Id,
    title: string,
    overviewImage: string,
    quantities: Option<seq<ProductionQuantity>>)

  /** The draft headshot record `createHeadshot` returns. */
  datatype Headshot = Headshot(id: Id, fileName: string, imageUrl: string, status: string)

  /** The order details edited by the quantity step; their fields are not read here. */
  datatype Order = Order(fields: map<string, string>)

  /** The component's state record. */
  datatype OrderState = OrderState(
    loading: bool,
    production: Option<ProductionData>,
    quantityId: Option<Id>,
    order: Option<Order>,
    step: nat,
    hasImage: bool,
    uploadImageUrl: Option<string>,
    fileName: string,
    email: string,
    headshot: Option<Headshot>,
    paid: bool)

  /** Top-level screens the host application can switch to. */
  datatype Menu = Productions | Imagemap

  /** A call the component makes to a collaborator, recorded instead of performed. */
  datatype Effect =
    | GetProduction(productionId: Id)
    | CreateHeadshot(email: string, fileName: string, quantity: Option<Id>, status: string)
    | DeleteHeadshot(headshotId: Id)
    | Persist(snapshot: OrderState)
    | Navigate(key: Menu, target: Option<Id>)
    | ReferenceError(identifier: string)

  /** One `[name]: value` entry of a `setState` call, for every key of the state record;
      `SetOther` is a key the component never reads. */
  datatype Assignment =
    | SetLoading(loading: bool)
    | SetProduction(production: Option<ProductionData>)
    | SetQuantityId(quantityId: Option<Id>)
    | SetOrder(order: Option<Order>)
    | SetStep(step: nat)
    | SetHasImage(hasImage: bool)
    | SetUploadImageUrl(uploadImageUrl: Option<string>)
    | SetFileName(fileName: string)
    | SetEmail(email: string)
    | SetHeadshot(headshot: Option<Headshot>)
    | SetPaid(paid: bool)
    | SetOther(name: string)

  /** The keys of the state record; `OtherKey` is a key the component never reads. */
  datatype Field =
    | LoadingKey | ProductionKey | QuantityIdKey | OrderKey | StepKey | HasImageKey
    | UploadImageUrlKey | FileNameKey | EmailKey | HeadshotKey | PaidKey | OtherKey(name: string)

  /** The key an entry names. */
  function KeyOf(a: Assignment): Field
  {
    match a
    case SetLoading(_) => LoadingKey
    case SetProduction(_) => ProductionKey
    case SetQuantityId(_) => QuantityIdKey
    case SetOrder(_) => OrderKey
    case SetStep(_) => StepKey
    case SetHasImage(_) => HasImageKey
    case SetUploadImageUrl(_) => UploadImageUrlKey
    case SetFileName(_) => FileNameKey
    case SetEmail(_) => EmailKey
    case SetHeadshot(_) => HeadshotKey
    case SetPaid(_) => PaidKey
    case SetOther(n) => OtherKey(n)
  }

  /** The value a state holds under a key, as the entry that would set it. */
  function Current(s: OrderState, f: Field): Assignment
  {
    match f
    case LoadingKey => SetLoading(s.loading)
    case ProductionKey => SetProduction(s.production)
    case QuantityIdKey => SetQuantityId(s.quantityId)
    case OrderKey => SetOrder(s.order)
    case StepKey => SetStep(s.step)
    case HasImageKey => SetHasImage(s.hasImage)
    case UploadImageUrlKey => SetUploadImageUrl(s.uploadImageUrl)
    case FileNameKey => SetFileName(s.fileName)
    case EmailKey => SetEmail(s.email)
    case HeadshotKey => SetHeadshot(s.headshot)
    case PaidKey => SetPaid(s.paid)
    case OtherKey(n) => SetOther(n)
  }

  /** `t` holds the same value as `s` under every key outside `changed`. */
  ghost predicate SameExcept(s: OrderState, t: OrderState, changed: set<Field>)
  {
    forall f :: f !in changed ==> Current(t, f) == Current(s, f)
  }

  /** The status every new headshot is created with. */
  const DraftStatus: string := "Draft"

  /** The state record as the class field initialiser declares it. */
  function Initial(): (s: OrderState)
    ensures !s.loading && s.production.None? && s.quantityId.None? && s.order.None? && s.step == 0
    ensures !s.hasImage && s.uploadImageUrl.None? && s.fileName == "" && s.email == ""
    ensures s.headshot.None? && !s.paid
  {
    OrderState(false, None, None, None, 0, false, None, "", "", None, false)
  }

  /** `setState({[name]: value})`: the named field takes the value, no other field changes. */
  function Assign(s: OrderState, a: Assignment): (t: OrderState)
    ensures Current(t, KeyOf(a)) == a
    ensures SameExcept(s, t, {KeyOf(a)})
  {
    match a
    case SetLoading(v) => s.(loading := v)
    case SetProduction(v) => s.(production := v)
    case SetQuantityId(v) => s.(quantityId := v)
    case SetOrder(v) => s.(order := v)
    case SetStep(v) => s.(step := v)
    case SetHasImage(v) => s.(hasImage := v)
    case SetUploadImageUrl(v) => s.(uploadImageUrl := v)
    case SetFileName(v) => s.(fileName := v)
    case SetEmail(v) => s.(email := v)
    case SetHeadshot(v) => s.(headshot := v)
    case SetPaid(v) => s.(paid := v)
    case SetOther(_) => s
  }
}

# Headshot production checkout wizard, modelled in Dafny

The `Production` component of the headshot front end walks a customer through ordering a
headshot production: choose a pricing tier (step 0), enter contact details (step 1), pick
an image in the gallery screen (step 2), review and pay (step 3), then finish. It keeps
one order record in its state, and its handlers move that record forward. Along the way
they call the headshot gateway (fetch the production, create and delete a draft
headshot), the store (persist the order) and the host menu (switch screens).

This project models that component:

- `records.dfy` (`Records`): the production, its pricing tiers, the draft headshot, the
  order state, the calls to collaborators (`Effect`), and one `setState` entry
  (`Assignment`).
- `quantities.dfy` (`Quantities`): how `render` resolves the selected tier, its amount and
  its price.
- `wizard.dfy` (`Wizard`): each handler, with its `setState` callback, as one transition
  on values. `Handle` dispatches an `Event` to the handler; `Run` handles a sequence of
  events.
- `view.dfy` (`View`): `renderStepForm`, the choice of the primary control, and `render`.
- `runs.dfy` (`Runs`): properties of single events and of whole runs.
- `component.dfy` (`ProductionComponent`): the component as a class. Its fields are
  updated in place, and the calls it makes go into a ghost log `effects`. Every handler
  method is proved equal to the matching `Wizard` transition.

Collaborators are not called. Each outgoing call is a value appended to the log. Each
response is a separate callback method (or `Event`). The draft and production callbacks
take the response and its failure flag. `HandleCheckout` and `HandlePayment` take only
the failure flag, because the handlers ignore the checkout token and the payment
response. The number of steps, `appUtils.getSteps().length`, is the `stepCount`
parameter of `View.Render`. `appUtils` is not part of this model; `renderStepForm` has
four step views (steps 0, 1, 2, and 3 or more), so 4 is the expected `stepCount`.

Modelling choices:

- Back is modelled as intended, not as written at line 110 (see "## Findings").
  `Wizard.Back` deletes the held draft on arriving at step 1. `Wizard.Handle`, and with
  it every run lemma (`Runs.BackDeletesHeldDraftOnce`, `Runs.DeletesOnlyHeldDraft`,
  `Runs.DeletesOnlyKnownDrafts`), and the class method `HandleBack` all use it. The code
  as written throws instead; `Wizard.BackAsWritten` models that.
- `step` is a `nat`. The Back button is disabled at step 0, so `handleBack` requires
  `step > 0`, and a Back click at step 0 is a no-op in `Wizard.Handle`.
- `plus_price` is given as whole cents; `parseFloat` is not modelled.
- Ids are strings. A `null` selection (`quantityId`) matches no tier.
- `Persist` carries the state snapshot that `setProductionState(this.state)` receives.
- `handleChange(name, value)` is an `Assignment` for any key of the state record.
  `SetOther` stands for a key the component never reads.
- The spread of the persisted order in `componentWillMount` is the same kind of
  `Assignment` list, merged over the defaults left to right (`Wizard.ApplyAll`).

Behaviour of the code worth knowing, as the model states it:

- `handleGetProductionResponse` ignores `isFailed`. It stores the response and clears
  `loading` either way. The spinner stays up only because `render` checks for the
  production and its tier list, not the `loading` flag.
- The order can be paid while the step is not the last one: Back stays enabled after
  paying, and `handlePayment` does not check the step.
- Once paid, Next leaves the wizard only when it is clicked away from step 1. At step 1,
  the Finish button requests another draft instead (`View.FinishAtInfoStepRequestsDraft`).
- Only Back is meant to delete a draft; as written it throws first (see Findings). A reset (`handleReset`) or a stepper jump
  (`handleChangeStep`) to step 0 or 1 leaves the draft in place. A later Next at step 1
  then replaces it without a delete.
- If no tier is selected, the payment button is offered with a price of 0
  (`View.CheckoutChargesSelectedTier`).

## Model

| member | source | states |
|---|---|---|
| `Quantities.Find` | src/components/production/Production.js:181-185 | the result is the first tier whose id equals the selection; it is absent exactly when no tier matches |
| `Quantities.Select` | src/components/production/Production.js:174-189 | a tier is selected exactly when the production and its tiers are loaded and one matches; the selected tier is the first match `Find` returns; amount and price are that tier's, and both are 0 when nothing is selected |
| `Quantities.FindDistinct` | src/components/production/Production.js:182-184 | when tier ids are distinct, selecting a tier's id resolves to that tier |
| `Quantities.SingleTierScenario` | src/components/production/Production.js:174-189 | production p1 with one tier q1 (8 photos, 20.00): selecting q1 gives amount 8 and price 2000 cents; any other selection gives 0 and 0 |
| `Records.Initial` | src/components/production/Production.js:28-40 | the field initialisers: not loading, no production, no tier, no order, step 0, no image, empty file name and email, no draft, unpaid |
| `Records.Assign` | src/components/production/Production.js:73-76 | the named key takes the entry's value, and every other key keeps its value |
| `Wizard.ApplyAll` | src/components/production/Production.js:42-48 | merging persisted entries leaves every key that no entry names with its value |
| `Wizard.ApplyAllSnoc` | src/components/production/Production.js:43-48 | merging one more entry is assigning it after the others |
| `Wizard.ApplyAllLastWins` | src/components/production/Production.js:43-48 | a key that entries name ends with the value of the last entry naming it |
| `Wizard.Mount` | src/components/production/Production.js:42-48 | after mounting, `loading` is set, the step is 0, there is no draft and the order is unpaid, unless the persisted entries name those keys; every other key the entries do not name keeps its initial value; the mounted state is the persisted entries merged in order over those defaults |
| `Wizard.MountRestoresPersisted` | src/components/production/Production.js:42-48 | a key the persisted order names is mounted with the value of the last entry that names it, overriding the default |
| `Wizard.Next` | src/components/production/Production.js:78-102 | only `loading` and `step` can change; at step 1 the step stays, `loading` is set and exactly one draft request carries the current email, file name and tier with status Draft; elsewhere the step advances, `loading` stays, and the calls are exactly the persist of the new state followed, when already paid, by the call to leave for the listing |
| `Wizard.Back` | src/components/production/Production.js:104-113 | only the step changes, down by one; the first call persists the new state; going from step 2 with a draft deletes that draft, and the only other call possible is that delete |
| `Wizard.BackAsWritten` | src/components/production/Production.js:104-113 | only the step changes, down by one; the first call persists the new state; no delete is ever made, and the ReferenceError occurs exactly when going from step 2 with a draft; the calls are exactly the persist followed, on that path, by the ReferenceError |
| `Wizard.Reset` | src/components/production/Production.js:115-121 | only the step changes, to 0, and the new state is persisted |
| `Wizard.HeadshotResponse` | src/components/production/Production.js:123-128 | on failure nothing changes and nothing is called; on success only `loading`, the draft and the step change, to not loading, the response, and one step on, and the new state is persisted |
| `Wizard.CheckoutResponse` | src/components/production/Production.js:130-137 | on failure nothing changes and nothing is called; on success only `loading` changes, to set, and the new state is persisted |
| `Wizard.PaymentResponse` | src/components/production/Production.js:139-146 | on failure nothing changes and nothing is called; on success only `loading`, `paid` and the step change, to not loading, paid, and one step on, and the new state is persisted |
| `Wizard.ProductionResponse` | src/components/production/Production.js:53-55 | only the production and `loading` change, to the response and not loading, with no call |
| `Wizard.Handle` | src/components/production/Production.js:53-146 | no event other than a generic field edit changes the user-info fields; a Back click at step 0 changes nothing and calls nothing |
| `Wizard.Run` | src/components/production/Production.js:53-146 | along a run with no generic field edit, the user-info fields (image flag, image URL, file name, email) end as they started |
| `View.RenderStepForm` | src/components/production/Production.js:148-168 | step 0 gives tier selection (with production, selection and order), 1 gives user info (with `hasImage`), 2 gives a request to open the gallery for the production id, 3 and above give the review; each holds exactly for its steps |
| `View.PrimaryControl` | src/components/production/Production.js:230-246 | the payment button (with the held draft and the price) shows exactly at step `stepCount - 1` while unpaid; otherwise the Next button is captioned Finish exactly when paid, and Next exactly when unpaid |
| `View.Render` | src/components/production/Production.js:170-254 | the spinner shows exactly when the production or its tier list is missing; otherwise the wizard shows the title and the step, Back is enabled exactly away from step 0, the primary control is the one `PrimaryControl` picks for the selected tier's price, and the body is `RenderStepForm` of the state |
| `View.CheckoutChargesSelectedTier` | src/components/production/Production.js:186-189 | the payment button carries the held draft and the selected tier's price, or 0 when no tier matches |
| `View.PaymentLeadsToFinish` | src/components/production/Production.js:139-146 | with at least three steps, a successful payment on the payment screen leads to the review body with a Finish button and Back enabled |
| `View.FailedPaymentKeepsCheckout` | src/components/production/Production.js:139-140 | after a failed payment the screen is the same, and the payment button stays |
| `View.FinishLeavesWizard` | src/components/production/Production.js:92-100 | clicking Finish away from step 1 advances, stays paid, and asks the host for the productions listing |
| `View.FinishAtInfoStepRequestsDraft` | src/components/production/Production.js:78-91 | clicking Finish at step 1 makes exactly one draft request and does not leave |
| `Runs.DraftRequestedOnlyFromInfoStep` | src/components/production/Production.js:78-91 | for every event, a create-headshot call is made only by Next at step 1, exactly once, with the current email, file name and tier and status Draft |
| `Runs.NextLeavesOnlyWhenPaid` | src/components/production/Production.js:79-100 | Next asks for the productions listing exactly when the order was already paid at the click and the step is not 1 |
| `Runs.BackDeletesHeldDraftOnce` | src/components/production/Production.js:104-113 | going back into step 1 with a draft held deletes exactly that draft, once; every other Back deletes nothing; Back never clears the draft |
| `Runs.BackAsWrittenKeepsDraft` | src/components/production/Production.js:108-110 | as written, going back into step 1 with a draft persists, then throws, and deletes nothing |
| `Runs.FailedResponsesChangeNothing` | src/components/production/Production.js:123-146 | failed draft, checkout and payment responses leave the state unchanged and make no call |
| `Runs.FetchIgnoresFailureFlag` | src/components/production/Production.js:53-55 | the production response is stored and `loading` cleared, with or without the failure flag |
| `Runs.LoadingClearedOnlyByResponse` | src/components/production/Production.js:53-146 | only the production response, a successful draft or payment response, or an explicit edit can clear `loading` |
| `Runs.StepChangesArePersisted` | src/components/production/Production.js:92-146 | every persisted snapshot is the state after the event; every step change except a stepper jump or a field edit is persisted |
| `Runs.PaidOnlyByPayment` | src/components/production/Production.js:139-146 | along any run without a manual edit of `paid`, the order ends paid exactly when it started paid or some payment in the run succeeded |
| `Runs.HeldDraftIsLastCreated` | src/components/production/Production.js:104-128 | along any run without a manual edit of `headshot`, the draft held at the end is the last one created successfully, or the initial one if none was |
| `Runs.DeletesOnlyHeldDraft` | src/components/production/Production.js:104-113 | one event deletes at most the draft it finds held |
| `Runs.DeletesOnlyKnownDrafts` | src/components/production/Production.js:104-128 | along any run without a manual edit of `headshot`, every deleted id is that of the initial draft or of one created during the run |
| `Runs.FailedDraftLeavesLoading` | src/components/production/Production.js:80-91 | at step 1, Next followed by a failed creation leaves the step and the draft unchanged and `loading` set, with exactly one create call made |
| `Runs.CheckoutHappyPath` | src/components/production/Production.js:78-146 | from step 1 unpaid, the sequence Next, created, Next, checkout, payment, Finish ends at step 5, paid, not loading, holding the draft, and the last call leaves for the listing |
| `ProductionComponent.Production.constructor` | src/components/production/Production.js:28-51 | the fields start as the defaults with `loading` set, step 0 and no draft, with the persisted entries merged over them; the only call made is the production fetch |
| `ProductionComponent.Production.HandleGetProductionResponse` | src/components/production/Production.js:53-55 | stores the response and clears `loading`, whatever the flag; nothing else changes |
| `ProductionComponent.Production.HandleClickGallery` | src/components/production/Production.js:57-59 | asks the host for the gallery of the given production; the state does not change |
| `ProductionComponent.Production.HandleChangeOrder` | src/components/production/Production.js:61-63 | only `order` changes |
| `ProductionComponent.Production.HandleChangeQuantity` | src/components/production/Production.js:65-67 | only `quantityId` changes |
| `ProductionComponent.Production.HandleChangeStep` | src/components/production/Production.js:69-71 | only `step` changes; nothing is persisted |
| `ProductionComponent.Production.HandleChange` | src/components/production/Production.js:73-76 | only the named field changes |
| `ProductionComponent.Production.HandleNext` | src/components/production/Production.js:78-102 | at step 1: sets only `loading` and requests the draft; elsewhere: advances the step only, persists, and leaves for the listing when already paid |
| `ProductionComponent.Production.HandleBack` | src/components/production/Production.js:104-113 | moves back one step, persists, and deletes the held draft on arriving at step 1 |
| `ProductionComponent.Production.HandleReset` | src/components/production/Production.js:115-121 | only the step changes, to 0; the state is persisted |
| `ProductionComponent.Production.HandleCreateHeadshot` | src/components/production/Production.js:123-128 | on failure nothing changes; on success it stores the draft, clears `loading`, advances the step and persists |
| `ProductionComponent.Production.HandleCheckout` | src/components/production/Production.js:130-137 | on failure nothing changes; on success only `loading` is set, and the state is persisted |
| `ProductionComponent.Production.HandlePayment` | src/components/production/Production.js:139-146 | on failure nothing changes; on success it clears `loading`, sets `paid`, advances the step and persists |
| `ProductionComponent.CheckoutSession` | src/components/production/Production.js:42-146 | a session driven through the handlers, from mount to Finish, ends paid, not loading, at step 5, with the draft, the chosen tier and the production |

## Left out

- The gateway functions (`getProduction`, `createHeadshot`, `deleteHeadshot`), the payment button and `onChangeMenu` are not modelled. Calls to them are recorded as `Effect` values, and their responses are callback inputs.
- The response to `deleteHeadshot` is not modelled: the callback intended at line 110 cannot be told from the code.
- The redux `connect` wiring and `setProductionState` are modelled only as the `Persist` effect. The persisted order from the store is an arbitrary list of field entries.
- `parseFloat(plus_price)` is floating-point parsing. The tier price is an integer number of cents.
- React rendering, Material-UI, `ImageLoader`, the stepper component and all styling are not modelled. `View.Render` keeps only the data the screen shows: title, Back state, primary control, step and body.
- The file name and image URL that `render` derives from the draft (lines 176-177) are not modelled, because nothing on the screen uses them.
- The `amount` that `render` computes is modelled in `Quantities.Select`, but it is not part of the screen, since the JSX never uses it.
- `setState` batching and late callbacks (for example a response after unmount) are not modelled; each handler with its callback is one atomic step. Responses may still arrive in any order relative to clicks, because runs allow any sequence of events.
- Runs: only the Back click is limited by what the screen allows (it is disabled at step 0). Other clicks and responses may occur in any state, so the run lemmas cover more sequences than the screen permits.
- `console.log` calls are not modelled.
- `src/routes/index.js` is route composition with no wizard logic and is not part of this model.

## Findings

| source | as written | input that shows it | evidently intended | confidence | as-written member | corrected member |
|---|---|---|---|---|---|---|
| src/components/production/Production.js:110 | `deleteHeadshot(this.state.headshot.id, handleCreateHeadshot)` passes an identifier with no binding in scope. Evaluating the arguments throws a ReferenceError, so the draft is never deleted, after the new step has been persisted | Back from step 2 while a draft is held | delete the held draft on returning to step 1, as the guard on lines 109-110 intends | not executed; the identifier is a class property, reachable only as `this.handleCreateHeadshot` | `Wizard.BackAsWritten`, shown by `Runs.BackAsWrittenKeepsDraft` | `Wizard.Back`, proved by `Runs.BackDeletesHeldDraftOnce` and `Runs.DeletesOnlyKnownDrafts` |

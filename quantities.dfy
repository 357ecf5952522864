/**
 * The pricing tier the order has selected, and the amount and price shown for it:
 * the derivation at the top of the component's `render`.
 */
module Quantities {
  import opened Wrappers
  import opened Records

  /** `quantity.id === quantityId`; a `null` selection matches no entry. */
  predicate Matches(q: ProductionQuantity, quantityId: Option<Id>)
  {
    quantityId == Some(q.id)
  }

  /** `production_quantities.find(...)`: the first entry whose id is the selected one. */
  function Find(qs: seq<ProductionQuantity>, quantityId: Option<Id>): (r: Option<ProductionQuantity>)
    ensures r.None? <==> forall i :: 0 <= i < |qs| ==> !Matches(qs[i], quantityId)
    ensures r.Some? ==> exists i :: 0 <= i < |qs| && qs[i] == r.value && Matches(qs[i], quantityId)
                                    && forall j :: 0 <= j < i ==> !Matches(qs[j], quantityId)
  {
    if qs == [] then None
    else if Matches(qs[0], quantityId) then Some(qs[0])
    else
      var r := Find(qs[1..], quantityId);
      assert forall j :: 1 <= j < |qs| ==> qs[j] == qs[1..][j - 1];
      r
  }

  /** What `render` derives from the selection: the entry, its `amount` and its price. */
  datatype Selection = Selection(quantity: Option<ProductionQuantity>, amount: int, price: int)

  /** The tier list `render` searches, when the production and its tiers are loaded. */
  function Tiers(production: Option<ProductionData>): Option<seq<ProductionQuantity>>
  {
    if production.Some? then production.value.quantities else None
  }

  /** Amount and price default to zero and are taken from the selected entry when there is one. */
  function Select(production: Option<ProductionData>, quantityId: Option<Id>): (r: Selection)
    ensures r.quantity.Some? <==>
              Tiers(production).Some? &&
              exists i :: 0 <= i < |Tiers(production).value| && Matches(Tiers(production).value[i], quantityId)
    ensures r.quantity.None? ==> r.amount == 0 && r.price == 0
    ensures r.quantity.Some? ==> Matches(r.quantity.value, quantityId)
                                 && r.quantity.value in Tiers(production).value
                                 && r.amount == r.quantity.value.amount
                                 && r.price == r.quantity.value.plusPrice
    ensures Tiers(production).Some? ==> r.quantity == Find(Tiers(production).value, quantityId)
  {
    var current := if Tiers(production).Some? then Find(Tiers(production).value, quantityId) else None;
    if current.Some? then Selection(current, current.value.amount, current.value.plusPrice)
    else Selection(None, 0, 0)
  }

  /** Tiers with distinct ids: selecting an entry's id resolves to that entry. */
  lemma FindDistinct(qs: seq<ProductionQuantity>, k: nat)
    requires k < |qs|
    requires forall i, j :: 0 <= i < j < |qs| ==> qs[i].id != qs[j].id
    ensures Find(qs, Some(qs[k].id)) == Some(qs[k])
  {
    var r := Find(qs, Some(qs[k].id));
    var i :| 0 <= i < |qs| && qs[i] == r.value && Matches(qs[i], Some(qs[k].id))
             && forall j :: 0 <= j < i ==> !Matches(qs[j], Some(qs[k].id));
    assert i == k;
  }

  /** A production reduced to one tier `q1` of 8 photos at 20.00 resolves to that tier;
      any other selection resolves to zero. */
  lemma SingleTierScenario(selection: Option<Id>)
    ensures var q1 := ProductionQuantity("q1", 8, 2000);
            var p1 := ProductionData("p1", "", "", Some([q1]));
            Select(Some(p1), selection) ==
              if selection == Some("q1") then Selection(Some(q1), 8, 2000) else Selection(None, 0, 0)
  {
  }
}

/**
 * The plan catalogue of the server. It appears twice in backend/server.js: the
 * listing endpoint returns four plans with their returns, and the purchase handler
 * keeps its own shorter copy (id, name and price) and looks the requested plan up
 * in it.
 */
module Plans {
  import opened Options

  /** A plan as the listing endpoint describes it; amounts in rupees. */
  datatype Plan = Plan(id: int, name: string, price: nat, dailyIncome: nat, totalReturn: nat, durationDays: nat)

  /** A plan as the purchase handler knows it. */
  datatype PlanRef = PlanRef(id: int, name: string, price: nat)

  /** The catalogue returned by the plan listing endpoint. */
  function ListedPlans(): seq<Plan>
  {
    [ Plan(1, "Basic Plan", 500, 50, 1500, 30),
      Plan(2, "Silver Plan", 1000, 120, 3600, 30),
      Plan(3, "Gold Plan", 5000, 650, 19500, 30),
      Plan(4, "Platinum Plan", 10000, 1400, 42000, 30) ]
  }

  /** The copy of the catalogue that the purchase handler searches. */
  function PurchasePlans(): seq<PlanRef>
  {
    [ PlanRef(1, "Basic Plan", 500),
      PlanRef(2, "Silver Plan", 1000),
      PlanRef(3, "Gold Plan", 5000),
      PlanRef(4, "Platinum Plan", 10000) ]
  }

  /** What the purchase handler keeps of a listed plan. */
  function Summary(p: Plan): PlanRef
  {
    PlanRef(p.id, p.name, p.price)
  }

  /** `find`: the first plan of `plans` whose id is `id`, if there is one. */
  function FindPlan(plans: seq<PlanRef>, id: int): (r: Option<PlanRef>)
    ensures r.Some? <==> exists i :: 0 <= i < |plans| && plans[i].id == id
    ensures r.Some? ==> exists i :: 0 <= i < |plans| && plans[i] == r.value && r.value.id == id &&
                                    forall j :: 0 <= j < i ==> plans[j].id != id
  {
    if plans == [] then None
    else if plans[0].id == id then Some(plans[0])
    else
      var r := FindPlan(plans[1..], id);
      assert forall i :: 1 <= i < |plans| ==> plans[i] == plans[1..][i - 1];
      r
  }

  /** Every listed plan pays its daily income for its whole duration, and pays back more than it costs. */
  lemma ListedPlansPayOff()
    ensures forall p :: p in ListedPlans() ==>
      p.totalReturn == p.dailyIncome * p.durationDays && p.totalReturn > p.price
  {
  }

  /** The purchase-side copy has the listed plans' ids, names and prices, in the same order. */
  lemma CataloguesAgree()
    ensures |PurchasePlans()| == |ListedPlans()|
    ensures forall i :: 0 <= i < |ListedPlans()| ==> PurchasePlans()[i] == Summary(ListedPlans()[i])
  {
  }

  /** The purchase handler finds exactly the plans 1 to 4, each as the listing endpoint describes it. */
  lemma PurchaseLookup(id: int)
    ensures FindPlan(PurchasePlans(), id).Some? <==> 1 <= id <= 4
    ensures 1 <= id <= 4 ==> FindPlan(PurchasePlans(), id) == Some(Summary(ListedPlans()[id - 1]))
  {
    var plans := PurchasePlans();
    if 1 <= id <= 4 {
      assert plans[id - 1].id == id;
    } else {
      assert forall i :: 0 <= i < |plans| ==> plans[i].id == i + 1;
    }
  }

  /** Every plan the purchase handler can find has a positive price. */
  lemma FoundPricePositive(id: int)
    ensures FindPlan(PurchasePlans(), id).Some? ==> FindPlan(PurchasePlans(), id).value.price > 0
  {
  }
}

/**
 * The enumerations of the lead and sale domain. Every member carries the string
 * value under which it is serialised (`.value`) and looked up again
 * (`LeadStage("new")`).
 */
module Enums {
  import opened Results

  /** Where a lead came from. */
  datatype LeadSource = Scanner | Partner | Manual
  {
    function Value(): string {
      match this
      case Scanner => "scanner"
      case Partner => "partner"
      case Manual => "manual"
    }
  }

  /** The position of a lead in its lifecycle. */
  datatype LeadStage = New | Contacted | Qualified | Transferred | Lost
  {
    function Value(): string {
      match this
      case New => "new"
      case Contacted => "contacted"
      case Qualified => "qualified"
      case Transferred => "transferred"
      case Lost => "lost"
    }
  }

  /** The optional classification tag of a lead. */
  datatype BusinessDomain = First | Second | Third
  {
    function Value(): string {
      match this
      case First => "first"
      case Second => "second"
      case Third => "third"
    }
  }

  /** The position of a sale in its own (unconstrained) lifecycle. */
  datatype SaleStage = New | Kyc | Agreement | Paid | Lost
  {
    function Value(): string {
      match this
      case New => "new"
      case Kyc => "kyc"
      case Agreement => "agreement"
      case Paid => "paid"
      case Lost => "lost"
    }
  }

  // Lookup by value: the enum member whose value is `v`, if there is one.

  function LeadSourceOf(v: string): (r: Option<LeadSource>)
    ensures r.Some? ==> r.value.Value() == v
    ensures r.None? ==> forall s: LeadSource :: s.Value() != v
  {
    if v == "scanner" then Some(Scanner)
    else if v == "partner" then Some(Partner)
    else if v == "manual" then Some(Manual)
    else None
  }

  function LeadStageOf(v: string): (r: Option<LeadStage>)
    ensures r.Some? ==> r.value.Value() == v
    ensures r.None? ==> forall s: LeadStage :: s.Value() != v
  {
    if v == "new" then Some(LeadStage.New)
    else if v == "contacted" then Some(Contacted)
    else if v == "qualified" then Some(Qualified)
    else if v == "transferred" then Some(Transferred)
    else if v == "lost" then Some(LeadStage.Lost)
    else None
  }

  function BusinessDomainOf(v: string): (r: Option<BusinessDomain>)
    ensures r.Some? ==> r.value.Value() == v
    ensures r.None? ==> forall d: BusinessDomain :: d.Value() != v
  {
    if v == "first" then Some(First)
    else if v == "second" then Some(Second)
    else if v == "third" then Some(Third)
    else None
  }

  function SaleStageOf(v: string): (r: Option<SaleStage>)
    ensures r.Some? ==> r.value.Value() == v
    ensures r.None? ==> forall s: SaleStage :: s.Value() != v
  {
    if v == "new" then Some(SaleStage.New)
    else if v == "kyc" then Some(Kyc)
    else if v == "agreement" then Some(Agreement)
    else if v == "paid" then Some(Paid)
    else if v == "lost" then Some(SaleStage.Lost)
    else None
  }

  // Serialising with `.value` and looking the value up again is the identity,
  // so the values are pairwise distinct and the serialisation is invertible.

  lemma LeadSourceRoundTrip(s: LeadSource)
    ensures LeadSourceOf(s.Value()) == Some(s)
  {
  }

  lemma LeadStageRoundTrip(s: LeadStage)
    ensures LeadStageOf(s.Value()) == Some(s)
  {
  }

  lemma BusinessDomainRoundTrip(d: BusinessDomain)
    ensures BusinessDomainOf(d.Value()) == Some(d)
  {
  }

  lemma SaleStageRoundTrip(s: SaleStage)
    ensures SaleStageOf(s.Value()) == Some(s)
  {
  }

  lemma LeadStageValuesDistinct(a: LeadStage, b: LeadStage)
    ensures a.Value() == b.Value() <==> a == b
  {
    LeadStageRoundTrip(a);
    LeadStageRoundTrip(b);
  }

  lemma SaleStageValuesDistinct(a: SaleStage, b: SaleStage)
    ensures a.Value() == b.Value() <==> a == b
  {
    SaleStageRoundTrip(a);
    SaleStageRoundTrip(b);
  }

  /** Every domain value is a non-empty string, so a set domain is truthy in Python. */
  lemma BusinessDomainValueNonEmpty(d: BusinessDomain)
    ensures |d.Value()| > 0
  {
  }
}

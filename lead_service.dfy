/**
 * The lead lifecycle controller: the constant transition table, the decisions
 * that validate a stage change and a promotion to sales, and the service that
 * keeps the leads and sales and applies those decisions.
 */
module Leads {
  import opened Results
  import opened Enums
  import opened Evaluator

  /** A prospective customer record. */
  datatype Lead = Lead(
    id: int,
    source: LeadSource,
    stage: LeadStage,
    businessDomain: Option<BusinessDomain>,
    activityCount: int,
    aiScore: Option<Hundredths>)

  /** The deal record created when a lead is promoted. */
  datatype Sale = Sale(id: int, leadId: int, stage: SaleStage)

  /** The request that creates a lead. */
  datatype LeadCreate = LeadCreate(source: LeadSource, businessDomain: Option<BusinessDomain>)

  /** Which promotion precondition failed. */
  datatype Precondition = MissingBusinessDomain | ScoreBelowThreshold

  /** The business errors the service raises. */
  datatype Error =
    | NotFound(leadId: int)
    | LeadAlreadyTransferred
    | InvalidTransition(from: LeadStage, to: LeadStage)
    | PreconditionFailed(reason: Precondition)
  {
    /** The HTTP status the error is raised with. */
    function StatusCode(): int {
      if NotFound? then 404 else 400
    }
  }

  // ----- The transition table -----

  /** The allowed stage changes, as data. */
  const AllowedTransitions: map<LeadStage, set<LeadStage>> := map[
    LeadStage.New := {Contacted, LeadStage.Lost},
    Contacted := {Qualified, LeadStage.Lost},
    Qualified := {Transferred, LeadStage.Lost},
    Transferred := {},
    LeadStage.Lost := {}
  ]

  /** `ALLOWED_TRANSITIONS.get(stage, set())`. */
  function AllowedFrom(stage: LeadStage): set<LeadStage> {
    if stage in AllowedTransitions then AllowedTransitions[stage] else {}
  }

  /** The distance of a stage from the start: new 0, contacted 1, qualified 2, the terminal stages 3. */
  function Rank(stage: LeadStage): nat {
    match stage
    case New => 0
    case Contacted => 1
    case Qualified => 2
    case Transferred => 3
    case Lost => 3
  }

  /**
   * The table holds every stage, and a change is allowed exactly when the lead
   * is not in a terminal stage and either advances by one step or drops to lost:
   * no self-loops, no skipping, transferred and lost have no way out.
   */
  lemma AllowedIsOneStepOrLoss(from: LeadStage, to: LeadStage)
    ensures from in AllowedTransitions
    ensures to in AllowedFrom(from) <==> Rank(from) < 3 && (to == LeadStage.Lost || Rank(to) == Rank(from) + 1)
    ensures to !in AllowedFrom(to)
  {
  }

  /** A sequence of stages in which each change is allowed. */
  ghost predicate IsWalk(p: seq<LeadStage>) {
    forall i :: 0 < i < |p| ==> p[i] in AllowedFrom(p[i - 1])
  }

  /** Along a walk every step raises the rank by at least one. */
  lemma {:induction false} WalkRankGrows(p: seq<LeadStage>, i: int, j: int)
    requires IsWalk(p)
    requires 0 <= i <= j < |p|
    ensures Rank(p[i]) + (j - i) <= Rank(p[j])
    decreases j - i
  {
    if i < j {
      WalkRankGrows(p, i, j - 1);
      AllowedIsOneStepOrLoss(p[j - 1], p[j]);
    }
  }

  /** The graph is acyclic: no walk visits a stage twice, and none is longer than four stages. */
  lemma WalkIsSimple(p: seq<LeadStage>)
    requires IsWalk(p)
    ensures |p| <= 4
    ensures forall i, j :: 0 <= i < j < |p| ==> p[i] != p[j]
  {
    if |p| > 4 {
      WalkRankGrows(p, 0, |p| - 1);
    }
    forall i, j | 0 <= i < j < |p| ensures p[i] != p[j] {
      WalkRankGrows(p, i, j);
    }
  }

  /** The only way from new to transferred passes through contacted and qualified. */
  lemma WalkToTransferred(p: seq<LeadStage>)
    requires IsWalk(p) && |p| > 0
    requires p[0] == LeadStage.New && p[|p| - 1] == Transferred
    ensures p == [LeadStage.New, Contacted, Qualified, Transferred]
  {
    WalkIsSimple(p);
    var n := |p|;
    // Walking backwards, each stage has exactly one possible predecessor.
    AllowedIsOneStepOrLoss(p[n - 2], p[n - 1]);
    assert p[n - 2] == Qualified;
    AllowedIsOneStepOrLoss(p[n - 3], p[n - 2]);
    assert p[n - 3] == Contacted;
    AllowedIsOneStepOrLoss(p[n - 4], p[n - 3]);
    assert p[n - 4] == LeadStage.New;
    assert n == 4;
  }

  // ----- Decisions -----

  /** The error a request to move a lead from `from` to `to` raises, if any; the transferred guard is checked first. */
  function StageChangeError(from: LeadStage, to: LeadStage): Option<Error> {
    if from == Transferred then Some(LeadAlreadyTransferred)
    else if to !in AllowedFrom(from) then Some(InvalidTransition(from, to))
    else None
  }

  /** A stage change is accepted exactly when the table allows it; a transferred lead rejects every target with its own error. */
  lemma StageChangeAcceptedIffAllowed(from: LeadStage, to: LeadStage)
    ensures StageChangeError(from, to).None? <==> to in AllowedFrom(from)
    ensures from == Transferred ==> StageChangeError(from, to) == Some(LeadAlreadyTransferred)
    ensures from != Transferred && to !in AllowedFrom(from) ==> StageChangeError(from, to) == Some(InvalidTransition(from, to))
  {
  }

  /** The serialised domain: its `.value`, or `None` when unset. */
  function DomainValue(d: Option<BusinessDomain>): Option<string> {
    if d.Some? then Some(d.value.Value()) else None
  }

  /** Python truthiness of the lead's domain: the scorer's truthiness of its value. */
  predicate DomainTruthy(d: Option<BusinessDomain>) {
    Truthy(DomainValue(d))
  }

  /** A domain is truthy exactly when it is set. */
  lemma DomainTruthyIffSet(d: Option<BusinessDomain>)
    ensures DomainTruthy(d) <==> d.Some?
  {
    if d.Some? {
      BusinessDomainValueNonEmpty(d.value);
    }
  }

  /** The promotion gate: the domain check, then the score check. */
  function TransferGateError(lead: Lead): Option<Error> {
    if !DomainTruthy(lead.businessDomain) then Some(PreconditionFailed(MissingBusinessDomain))
    else if lead.aiScore.None? || lead.aiScore.value < ScoreThreshold then Some(PreconditionFailed(ScoreBelowThreshold))
    else None
  }

  /** The error a promotion raises, if any: the gate first, then the stage change to transferred. */
  function TransferError(lead: Lead): Option<Error> {
    var gate := TransferGateError(lead);
    if gate.Some? then gate else StageChangeError(lead.stage, Transferred)
  }

  /** A promotion succeeds exactly for a qualified lead with a domain and a score of at least 0.6. */
  lemma TransferAcceptedIff(lead: Lead)
    ensures TransferError(lead).None? <==>
      lead.businessDomain.Some? && lead.aiScore.Some? && lead.aiScore.value >= ScoreThreshold
      && lead.stage == Qualified
  {
    DomainTruthyIffSet(lead.businessDomain);
  }

  /** The checks come in order: domain before score, both before any stage check. */
  lemma TransferCheckOrder(lead: Lead)
    ensures lead.businessDomain.None? ==> TransferError(lead) == Some(PreconditionFailed(MissingBusinessDomain))
    ensures lead.businessDomain.Some? && (lead.aiScore.None? || lead.aiScore.value < ScoreThreshold) ==>
      TransferError(lead) == Some(PreconditionFailed(ScoreBelowThreshold))
    ensures TransferGateError(lead).None? && lead.stage != Qualified ==>
      TransferError(lead) == Some(if lead.stage == Transferred then LeadAlreadyTransferred
                                  else InvalidTransition(lead.stage, Transferred))
  {
    DomainTruthyIffSet(lead.businessDomain);
  }

  /** A lead that passes the gate while still new fails on the stage check. */
  lemma NewLeadCannotBePromoted(lead: Lead)
    requires lead.stage == LeadStage.New && TransferGateError(lead).None?
    ensures TransferError(lead) == Some(InvalidTransition(LeadStage.New, Transferred))
  {
  }

  /** A lead that has been promoted cannot be promoted again. */
  lemma SecondPromotionRejected(lead: Lead)
    requires lead.stage == Transferred
    ensures TransferError(lead).Some?
    ensures TransferGateError(lead).None? ==> TransferError(lead) == Some(LeadAlreadyTransferred)
  {
  }

  /** The snapshot of a lead that the scorer receives. */
  function Snapshot(lead: Lead): LeadData {
    LeadData(
      Some(lead.source.Value()),
      Some(lead.stage.Value()),
      DomainValue(lead.businessDomain),
      Some(lead.activityCount))
  }

  /**
   * Once a lead with a domain has been scored by the heuristic, the score gate
   * agrees with the recommendation: both use the same threshold.
   */
  lemma RecommendationAgreesWithGate(lead: Lead)
    requires lead.businessDomain.Some?
    ensures var result := Evaluate(Snapshot(lead));
      result.recommendation == TransferToSales <==> TransferGateError(lead.(aiScore := Some(result.score))).None?
  {
    DomainTruthyIffSet(lead.businessDomain);
    RecommendationIffThreshold(Snapshot(lead));
  }

  /** Without a domain the heuristic can still recommend a transfer that the gate then refuses. */
  lemma RecommendationWithoutDomain(lead: Lead)
    requires lead.source == Partner && lead.businessDomain.None? && lead.activityCount > 10
    ensures Evaluate(Snapshot(lead)).recommendation == TransferToSales
    ensures TransferGateError(lead.(aiScore := Some(Evaluate(Snapshot(lead)).score))) == Some(PreconditionFailed(MissingBusinessDomain))
  {
  }

  /** The heuristic score of a lead in terms of its fields. */
  lemma HeuristicScoreOfLead(lead: Lead)
    ensures Evaluate(Snapshot(lead)).score ==
      (match lead.source case Partner => 30 case Manual => 20 case Scanner => 10)
      + (if lead.businessDomain.Some? then 30 else 0)
      + ActivityPoints(lead.activityCount)
  {
    if lead.businessDomain.Some? {
      BusinessDomainValueNonEmpty(lead.businessDomain.value);
    }
  }

  // ----- The service -----

  /**
   * The store of leads and sales and the operations on it. Leads are keyed by
   * id; ids come from counters standing for the database's auto-increment.
   */
  class LeadService {
    var leads: map<int, Lead>
    var sales: seq<Sale>
    var nextLeadId: int
    var nextSaleId: int
    /** The scorer, swappable: any function from snapshot to a result in range. */
    const scorer: LeadData -> AnalysisResult

    /**
     * Keys match ids and stay below the counter; every sale belongs to a
     * transferred lead and is still in stage new (nothing here moves a sale),
     * no lead has two sales and sale ids are distinct.
     */
    ghost predicate Valid()
      reads this
    {
      1 <= nextLeadId && 1 <= nextSaleId
      && (forall id :: id in leads ==> leads[id].id == id && 1 <= id < nextLeadId)
      && (forall i :: 0 <= i < |sales| ==>
            1 <= sales[i].id < nextSaleId && sales[i].stage == SaleStage.New
            && sales[i].leadId in leads && leads[sales[i].leadId].stage == Transferred)
      && (forall i, j :: 0 <= i < j < |sales| ==> sales[i].leadId != sales[j].leadId && sales[i].id != sales[j].id)
    }

    constructor (scorer: LeadData -> AnalysisResult)
      ensures Valid()
      ensures leads == map[] && sales == [] && this.scorer == scorer
    {
      this.scorer := scorer;
      leads := map[];
      sales := [];
      nextLeadId := 1;
      nextSaleId := 1;
    }

    /** A new lead starts in stage new with no activity and no score, keeping the requested source and domain. */
    method CreateLead(data: LeadCreate) returns (lead: Lead)
      requires Valid()
      modifies this`leads, this`nextLeadId
      ensures Valid()
      ensures lead.id == old(nextLeadId) && lead.id !in old(leads)
      ensures lead.stage == LeadStage.New && lead.activityCount == 0 && lead.aiScore.None?
      ensures lead.source == data.source && lead.businessDomain == data.businessDomain
      ensures leads == old(leads)[lead.id := lead]
    {
      lead := Lead(nextLeadId, data.source, LeadStage.New, data.businessDomain, 0, None);
      leads := leads[lead.id := lead];
      nextLeadId := nextLeadId + 1;
    }

    /** The lead with the given id, or NotFound. */
    method GetLead(leadId: int) returns (r: Result<Lead, Error>)
      requires Valid()
      ensures r.Ok? <==> leadId in leads
      ensures r.Ok? ==> r.value == leads[leadId] && r.value.id == leadId
      ensures r.Err? ==> r.error == NotFound(leadId) && r.error.StatusCode() == 404
    {
      if leadId in leads {
        r := Ok(leads[leadId]);
      } else {
        r := Err(NotFound(leadId));
      }
    }

    /**
     * Validates and applies a stage change. On any error nothing changes; on
     * success only this lead's stage changes.
     */
    method UpdateStage(leadId: int, newStage: LeadStage) returns (r: Result<Lead, Error>)
      requires Valid()
      modifies this`leads
      ensures Valid()
      ensures leadId !in old(leads) ==> r == Err(NotFound(leadId)) && leads == old(leads)
      ensures leadId in old(leads) ==>
        var lead := old(leads)[leadId];
        var error := StageChangeError(lead.stage, newStage);
        if error.Some? then
          r == Err(error.value) && leads == old(leads)
        else
          r == Ok(lead.(stage := newStage)) && leads == old(leads)[leadId := lead.(stage := newStage)]
    {
      var found := GetLead(leadId);
      if found.Err? {
        r := Err(found.error);
        return;
      }
      var lead := found.value;
      if lead.stage == Transferred {
        r := Err(LeadAlreadyTransferred);
        return;
      }
      if newStage !in AllowedFrom(lead.stage) {
        r := Err(InvalidTransition(lead.stage, newStage));
        return;
      }
      lead := lead.(stage := newStage);
      leads := leads[leadId := lead];
      r := Ok(lead);
    }

    /**
     * Scores the lead's snapshot with the scorer and stores the score; the
     * stage and every other field and lead are left as they were.
     */
    method AnalyzeLead(leadId: int) returns (r: Result<AnalysisResult, Error>)
      requires Valid()
      modifies this`leads
      ensures Valid()
      ensures leadId !in old(leads) ==> r == Err(NotFound(leadId)) && leads == old(leads)
      ensures leadId in old(leads) ==>
        var lead := old(leads)[leadId];
        r == Ok(scorer(Snapshot(lead)))
        && leads == old(leads)[leadId := lead.(aiScore := Some(r.value.score))]
    {
      var found := GetLead(leadId);
      if found.Err? {
        r := Err(found.error);
        return;
      }
      var lead := found.value;
      var data := Snapshot(lead);
      var result := scorer(data);
      lead := lead.(aiScore := Some(result.score));
      leads := leads[leadId := lead];
      r := Ok(result);
    }

    /**
     * Promotes a lead to sales: checks the domain, then the score, then moves
     * the lead to transferred and only then appends one sale in stage new.
     * On any error nothing changes.
     */
    method TransferToSales(leadId: int) returns (r: Result<Sale, Error>)
      requires Valid()
      modifies this`leads, this`sales, this`nextSaleId
      ensures Valid()
      ensures leadId !in old(leads) ==>
        r == Err(NotFound(leadId)) && leads == old(leads) && sales == old(sales) && nextSaleId == old(nextSaleId)
      ensures leadId in old(leads) ==>
        var lead := old(leads)[leadId];
        var error := TransferError(lead);
        if error.Some? then
          r == Err(error.value) && leads == old(leads) && sales == old(sales) && nextSaleId == old(nextSaleId)
        else
          r == Ok(Sale(old(nextSaleId), leadId, SaleStage.New))
          && leads == old(leads)[leadId := lead.(stage := Transferred)]
          && sales == old(sales) + [r.value]
    {
      var found := GetLead(leadId);
      if found.Err? {
        r := Err(found.error);
        return;
      }
      var lead := found.value;
      if !DomainTruthy(lead.businessDomain) {
        r := Err(PreconditionFailed(MissingBusinessDomain));
        return;
      }
      if lead.aiScore.None? || lead.aiScore.value < ScoreThreshold {
        r := Err(PreconditionFailed(ScoreBelowThreshold));
        return;
      }
      var moved := UpdateStage(lead.id, Transferred);
      if moved.Err? {
        r := Err(moved.error);
        return;
      }
      var sale := Sale(nextSaleId, lead.id, SaleStage.New);
      sales := sales + [sale];
      nextSaleId := nextSaleId + 1;
      r := Ok(sale);
    }
  }

  /** A lead walked through its lifecycle with the heuristic scorer, and the errors along the way. */
  method PromotionScenario()
  {
    var service := new LeadService(Evaluate);
    var lead := service.CreateLead(LeadCreate(Partner, Some(First)));
    assert lead.stage == LeadStage.New && lead.aiScore.None?;

    var analysis := service.AnalyzeLead(lead.id);
    HeuristicScoreOfLead(lead);
    RecommendationIffThreshold(Snapshot(lead));
    assert analysis.Ok? && analysis.value.score == 60 && analysis.value.recommendation == TransferToSales;

    var early := service.TransferToSales(lead.id);
    assert early == Err(InvalidTransition(LeadStage.New, Transferred));

    var step := service.UpdateStage(lead.id, Contacted);
    assert step.Ok?;
    step := service.UpdateStage(lead.id, Qualified);
    assert step.Ok?;

    var sale := service.TransferToSales(lead.id);
    assert sale.Ok? && sale.value.leadId == lead.id && sale.value.stage == SaleStage.New;
    assert service.leads[lead.id].stage == Transferred;

    var again := service.TransferToSales(lead.id);
    assert again == Err(LeadAlreadyTransferred);
    var back := service.UpdateStage(lead.id, Contacted);
    assert back == Err(LeadAlreadyTransferred);
    assert |service.sales| == 1;
  }
}

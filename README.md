# Lead lifecycle and heuristic scorer — a Dafny model

This project models the decision logic of a small sales-lead tracker:

- **Enums** (`customer_enums.dfy`): the lead sources, lead stages, business
  domains and sale stages with their string values, and lookup by value.
- **Evaluator** (`evaluator.dfy`): the heuristic scorer. It adds a source
  contribution (partner 0.3, manual 0.2, scanner 0.1), a domain contribution
  (0.3 when the domain is truthy) and an activity contribution (0.4 above 10,
  0.2 above 3). It clamps the sum into [0, 1] and recommends
  `transfer_to_sales` at 0.6 or more, `nurture_lead` below. The rationale
  clauses are joined with `" | "`. `EvaluateLead` is the step-by-step
  accumulation the service runs. It is proved equal to the function
  `Evaluate`, and the lemmas are stated about `Evaluate`.
- **Leads** (`lead_service.dfy`): the lifecycle controller. It has the constant
  transition table, the pure decisions for a stage change and a promotion,
  and the class `LeadService`. That class keeps the leads (`map<int, Lead>`)
  and the sales (`seq<Sale>`) and implements create, get, update-stage,
  analyze and transfer-to-sales.
  - Each database commit becomes an assignment to those fields.
  - Each raised HTTP error becomes an `Error` value returned in a `Result`.
  - The object invariant `Valid()` says that every sale belongs to a
    transferred lead and is in sale stage new, that no lead has two sales and
    that ids are distinct. Every operation preserves it.
  - The guard against changing a transferred lead is its own error
    constructor, `LeadAlreadyTransferred`. Like `InvalidTransition`, it is
    raised with status 400 and is a stage-machine violation. It is kept
    separate because the code raises it with its own message and without the
    two stages.

Scores are integers counting hundredths (60 stands for 0.6). For the
heuristic scorer this is exact: every contribution is a multiple of 0.1 and
the returned score is rounded to two decimals. So its integer score equals
the rounded score, and on every reachable sum it falls on the same side of
0.6 as the floating-point one. The subset type `Hundredths` carries the
range [0, 100], the `ge=0.0, le=1.0` bound of the result schema, but only on
the grid of hundredths. A plugged-in scorer may return any float in [0, 1];
see "## Left out".

The scorer is a swappable collaborator: `LeadService` holds it as a
`const scorer: LeadData -> AnalysisResult`, and the heuristic `Evaluate` is
one such function.

Two behaviours of the code are worth knowing:

- A qualified lead can be moved to `transferred` directly by a stage update,
  bypassing the domain and score gate. That lead then has no sale, and it can
  never get one: every later promotion fails. It fails on the gate
  (`PreconditionFailed`) when the domain or a qualifying score is missing,
  and otherwise on the transferred guard (`TransferCheckOrder`,
  `SecondPromotionRejected`). So the model's
  invariant is "every sale's lead is transferred and has only that sale". It
  does not include "every transferred lead has a sale", which the code does
  not maintain.
- Without a business domain, the heuristic can still recommend
  `transfer_to_sales` (partner + more than 10 activities = 0.7). The promotion
  gate then refuses the lead for its missing domain (`RecommendationWithoutDomain`).

## Model

| member | source | states |
|---|---|---|
| `Enums.LeadSourceOf` | app/enums/customer_enums.py:4-7 | the lookup returns the source whose value is the string, and none exactly when no source has that value |
| `Enums.LeadStageOf` | app/enums/customer_enums.py:10-15 | the same for the five lead stages |
| `Enums.BusinessDomainOf` | app/enums/customer_enums.py:18-21 | the same for the three domains |
| `Enums.SaleStageOf` | app/enums/customer_enums.py:24-29 | the same for the five sale stages |
| `Enums.LeadSourceRoundTrip` | app/enums/customer_enums.py:4-7 | looking up a source's value gives that source back (serialisation is invertible) |
| `Enums.LeadStageRoundTrip` | app/enums/customer_enums.py:10-15 | looking up a stage's value gives that stage back |
| `Enums.BusinessDomainRoundTrip` | app/enums/customer_enums.py:18-21 | looking up a domain's value gives that domain back |
| `Enums.SaleStageRoundTrip` | app/enums/customer_enums.py:24-29 | looking up a sale stage's value gives that stage back |
| `Enums.LeadStageValuesDistinct` | app/enums/customer_enums.py:10-15 | two lead stages have the same value exactly when they are the same stage |
| `Enums.SaleStageValuesDistinct` | app/enums/customer_enums.py:24-29 | two sale stages have the same value exactly when they are the same stage |
| `Enums.BusinessDomainValueNonEmpty` | app/enums/customer_enums.py:18-21 | every domain value is a non-empty string, hence truthy |
| `Evaluator.EvaluateLead` | app/ai/evaluator.py:13-63 | the step-by-step accumulation of score and reasons, clamp, recommendation and join yields exactly `Evaluate` of the snapshot |
| `Evaluator.SourcePointsTable` | app/ai/evaluator.py:21-30 | the source contributes 30 for partner, 20 for manual, 10 for scanner and 0 for any other or absent source |
| `Evaluator.EverySourceRecognised` | app/ai/evaluator.py:22-30 | the value of every lead source is a string the scorer recognises: it contributes more than 0 and one clause |
| `Evaluator.DomainPointsIffTruthy` | app/ai/evaluator.py:33-37 | the domain contributes 30 exactly when it is present and non-empty, else 0 |
| `Evaluator.ActivityBands` | app/ai/evaluator.py:40-48 | activity contributes 40 above 10, 20 in (3, 10], 0 otherwise; an absent count scores as 0 |
| `Evaluator.ScoreIsRawSum` | app/ai/evaluator.py:51 | the unclamped sum lies in [0, 100], so the returned score is that sum and never exceeds 1.0 |
| `Evaluator.RecommendationIffThreshold` | app/ai/evaluator.py:54-57 | the recommendation is transfer_to_sales exactly when the score is at least 60, and nurture_lead exactly when it is below |
| `Evaluator.EvaluateIgnoresStage` | app/ai/evaluator.py:21-48 | changing the snapshot's stage key changes nothing in the result |
| `Evaluator.ScoreMonotoneInActivity` | app/ai/evaluator.py:40-46 | with everything else fixed, a larger activity count never gives a lower score |
| `Evaluator.ReasonLayout` | app/ai/evaluator.py:18-62 | the rationale is the source, domain and activity clauses in that order joined by the separator `ReasonSeparator` (space, bar, space): three clauses for a recognised source, two otherwise |
| `Evaluator.PartnerWithDomainReachesThreshold` | app/ai/evaluator.py:13-63 | partner with a domain and no activity scores 0.6 and is recommended for transfer |
| `Evaluator.ScannerWithoutDomainIsNurtured` | app/ai/evaluator.py:13-63 | scanner without a domain and two activities scores 0.1 and is nurtured |
| `Leads.AllowedIsOneStepOrLoss` | app/services/lead_service.py:11-17 | every stage is in the table; a change is allowed exactly from a non-terminal stage to the next stage or to lost; no stage maps to itself |
| `Leads.WalkRankGrows` | app/services/lead_service.py:11-17 | along any sequence of allowed changes each step raises the stage's rank by at least one |
| `Leads.WalkIsSimple` | app/services/lead_service.py:11-17 | the transition graph is acyclic: no sequence of allowed changes repeats a stage or has more than four stages |
| `Leads.WalkToTransferred` | app/services/lead_service.py:11-17 | the only way from new to transferred is new, contacted, qualified, transferred |
| `Leads.StageChangeAcceptedIffAllowed` | app/services/lead_service.py:55-65 | a stage change is accepted exactly when the table allows it; a transferred lead rejects every target with its own error; any other disallowed pair fails with InvalidTransition naming both stages |
| `Leads.DomainTruthyIffSet` | app/services/lead_service.py:97 | the domain check fails exactly when the lead has no domain |
| `Leads.TransferAcceptedIff` | app/services/lead_service.py:97-109 | a promotion succeeds exactly for a qualified lead with a domain and a score of at least 60 |
| `Leads.TransferCheckOrder` | app/services/lead_service.py:97-109 | a missing domain fails first, whatever the score; then a missing or low score; a lead past both that is not qualified fails with the transferred guard if it is transferred, else with InvalidTransition(its stage, transferred) |
| `Leads.NewLeadCannotBePromoted` | app/services/lead_service.py:103-109 | a new lead that passes the gate still fails with InvalidTransition(new, transferred) |
| `Leads.SecondPromotionRejected` | app/services/lead_service.py:55-59 | a transferred lead cannot be promoted again; past the gate it fails on the transferred guard |
| `Leads.RecommendationAgreesWithGate` | app/services/lead_service.py:103-107 | for a lead with a domain, the heuristic recommends transfer exactly when the score it stores passes the score gate |
| `Leads.RecommendationWithoutDomain` | app/services/lead_service.py:97-101 | a partner lead without a domain and over 10 activities is recommended for transfer, yet the gate refuses it for the missing domain |
| `Leads.HeuristicScoreOfLead` | app/services/lead_service.py:77-86 | the heuristic score of a lead's snapshot is its source's base plus 30 for a domain plus its activity band |
| `Leads.LeadService.constructor` | app/services/lead_service.py:21-27 | a service starts with no leads and no sales, holding the given scorer, and satisfies the invariant |
| `Leads.LeadService.CreateLead` | app/services/lead_service.py:29-40 | the new lead gets a fresh id, stage new, activity 0 and no score, keeps the given source and domain, and is the only lead added |
| `Leads.LeadService.GetLead` | app/services/lead_service.py:42-49 | returns the stored lead with the requested id, or NotFound (status 404) exactly when there is none |
| `Leads.LeadService.UpdateStage` | app/services/lead_service.py:51-70 | NotFound or the stage-change error leaves the store unchanged; on success only this lead's stage changes, to the requested one; the invariant is kept |
| `Leads.LeadService.AnalyzeLead` | app/services/lead_service.py:72-91 | returns the scorer's result on the lead's snapshot and stores its score; stage, source, domain, activity and other leads are unchanged |
| `Leads.LeadService.TransferToSales` | app/services/lead_service.py:93-116 | fails with the first failing check, leaving everything unchanged; on success the lead becomes transferred and exactly one sale for it, in stage new, is appended; the invariant kept says every sale held is in stage new and no lead ever has two sales |

## Left out

- HTTP routing, response shaping, configuration and start-up schema creation. These are plumbing around the service.
- Asynchrony, transactions and infrastructure failures. Each commit, refresh and query is one atomic state update, and a promotion's two effects happen in sequence. A database failure between the stage change and the sale insert is not modelled.
- Floating-point arithmetic and `round`. They are replaced by integer hundredths, which give the same results on every input the heuristic scorer can produce.
- Leads.LeadService.scorer: a plugged-in scorer's score is restricted to whole hundredths, while the result schema allows any float in [0, 1] and the service stores it unrounded. A replacement scorer returning, say, 0.595 or 0.605 has no counterpart in the model, and rounding such a score to the grid could flip the 0.6 gate.
- The exact text of error messages. Errors are constructors: the transition error carries both stages, the precondition error names the failed check.
- Incrementing `activity_count`. No code in this system changes it; the model reads it and never changes it.
- A snapshot whose `activity_count` key is present but `None` raises a type error in the scorer. `LeadData` has no such case: an absent count is `None` and scores as 0. The service always supplies a count.
- The lead-to-sale back-reference (`relationship`). It is represented by `Sale.leadId` and by the invariant that no lead has two sales.

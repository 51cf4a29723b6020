/**
 * The heuristic lead scorer. It adds a source, a domain and an activity
 * contribution, clamps the sum into [0, 1], derives a recommendation from the
 * shared threshold and explains itself with one clause per contribution.
 *
 * Scores are integers counting hundredths of a unit (30 stands for 0.3). Every
 * contribution is a multiple of 0.1 and the result is rounded to two decimals,
 * so the integer score is the rounded floating-point score exactly.
 */
module Evaluator {
  import opened Results
  import opened Enums

  /** A deal probability in hundredths; the bounds are those of `AIAnalysisResult.score`. */
  type Hundredths = x: int | 0 <= x <= 100

  /** The one threshold shared by the recommendation and the promotion gate (0.6). */
  const ScoreThreshold: Hundredths := 60

  const TransferToSales := "transfer_to_sales"
  const NurtureLead := "nurture_lead"
  const ReasonSeparator := " | "

  const PartnerReason := "Partner leads have higher conversion rates."
  const ScannerReason := "Scanner leads require more warming up."
  const ManualReason := "Manually added leads show active interest."
  const DomainReason := "Clear business domain identified."
  const NoDomainReason := "Missing business domain lowers probability."
  const HighActivityReason := "High engagement rate (>10 messages)."
  const ModerateActivityReason := "Moderate engagement."
  const LowActivityReason := "Low engagement."

  /**
   * The feature snapshot handed to a scorer: the values of the dictionary's
   * keys, `None` where a key is absent or holds `None`. For `activityCount`,
   * `None` means the key is absent.
   */
  datatype LeadData = LeadData(
    source: Option<string>,
    stage: Option<string>,
    businessDomain: Option<string>,
    activityCount: Option<int>)

  /** What every scorer returns; the score's range is enforced by its type. */
  datatype AnalysisResult = AnalysisResult(score: Hundredths, recommendation: string, reason: string)

  /** Python truthiness of an optional string: present and non-empty. */
  predicate Truthy(v: Option<string>) {
    v.Some? && v.value != ""
  }

  /** The activity count the scorer reads, defaulting to 0 when the key is absent. */
  function Activity(data: LeadData): int {
    if data.activityCount.Some? then data.activityCount.value else 0
  }

  function SourcePoints(source: Option<string>): int {
    if source == Some("partner") then 30
    else if source == Some("scanner") then 10
    else if source == Some("manual") then 20
    else 0
  }

  /** The source clause: one for a recognised source, none otherwise. */
  function SourceReasons(source: Option<string>): seq<string> {
    if source == Some("partner") then [PartnerReason]
    else if source == Some("scanner") then [ScannerReason]
    else if source == Some("manual") then [ManualReason]
    else []
  }

  function DomainPoints(domain: Option<string>): int {
    if Truthy(domain) then 30 else 0
  }

  function DomainReasonFor(domain: Option<string>): string {
    if Truthy(domain) then DomainReason else NoDomainReason
  }

  function ActivityPoints(activity: int): int {
    if activity > 10 then 40 else if activity > 3 then 20 else 0
  }

  function ActivityReasonFor(activity: int): string {
    if activity > 10 then HighActivityReason
    else if activity > 3 then ModerateActivityReason
    else LowActivityReason
  }

  /** The unclamped sum of the three contributions. */
  function RawScore(data: LeadData): int {
    SourcePoints(data.source) + DomainPoints(data.businessDomain) + ActivityPoints(Activity(data))
  }

  /** `min(max(x, 0.0), 1.0)` in hundredths. */
  function Clamp(x: int): Hundredths {
    if x < 0 then 0 else if x > 100 then 100 else x
  }

  function Recommendation(score: Hundredths): string {
    if score >= ScoreThreshold then TransferToSales else NurtureLead
  }

  /** The rationale clauses in the order source, domain, activity. */
  function Reasons(data: LeadData): seq<string> {
    SourceReasons(data.source) + [DomainReasonFor(data.businessDomain), ActivityReasonFor(Activity(data))]
  }

  /** Python's `sep.join(parts)`. */
  function Join(parts: seq<string>, sep: string): string {
    if |parts| == 0 then ""
    else if |parts| == 1 then parts[0]
    else parts[0] + sep + Join(parts[1..], sep)
  }

  /** The heuristic scorer as a function of the snapshot. */
  function Evaluate(data: LeadData): AnalysisResult {
    var score := Clamp(RawScore(data));
    AnalysisResult(score, Recommendation(score), Join(Reasons(data), ReasonSeparator))
  }

  /** The scorer as the source runs it: accumulate score and reasons step by step. */
  method EvaluateLead(data: LeadData) returns (r: AnalysisResult)
    ensures r == Evaluate(data)
  {
    var score := 0;
    var reasons: seq<string> := [];

    var source := data.source;
    if source == Some("partner") {
      score := score + 30;
      reasons := reasons + [PartnerReason];
    } else if source == Some("scanner") {
      score := score + 10;
      reasons := reasons + [ScannerReason];
    } else if source == Some("manual") {
      score := score + 20;
      reasons := reasons + [ManualReason];
    }
    assert score == SourcePoints(data.source) && reasons == SourceReasons(data.source);

    if data.businessDomain.Some? && data.businessDomain.value != "" {
      score := score + 30;
      reasons := reasons + [DomainReason];
    } else {
      reasons := reasons + [NoDomainReason];
    }
    assert reasons == SourceReasons(data.source) + [DomainReasonFor(data.businessDomain)];

    var activity := if data.activityCount.Some? then data.activityCount.value else 0;
    if activity > 10 {
      score := score + 40;
      reasons := reasons + [HighActivityReason];
    } else if activity > 3 {
      score := score + 20;
      reasons := reasons + [ModerateActivityReason];
    } else {
      reasons := reasons + [LowActivityReason];
    }
    assert score == RawScore(data) && reasons == Reasons(data);

    var atLeastZero := if score < 0 then 0 else score;
    var finalScore := if atLeastZero > 100 then 100 else atLeastZero;

    var recommendation;
    if finalScore >= ScoreThreshold {
      recommendation := TransferToSales;
    } else {
      recommendation := NurtureLead;
    }

    r := AnalysisResult(finalScore, recommendation, Join(reasons, ReasonSeparator));
  }

  // ----- Properties of the scorer -----

  /** The source contribution: 30 partner, 20 manual, 10 scanner, 0 for anything else or absent. */
  lemma SourcePointsTable(source: Option<string>)
    ensures source == Some(Partner.Value()) ==> SourcePoints(source) == 30
    ensures source == Some(Manual.Value()) ==> SourcePoints(source) == 20
    ensures source == Some(Scanner.Value()) ==> SourcePoints(source) == 10
    ensures (forall s: LeadSource :: source != Some(s.Value())) ==> SourcePoints(source) == 0
  {
    if SourcePoints(source) != 0 {
      assert source == Some(Partner.Value()) || source == Some(Manual.Value()) || source == Some(Scanner.Value());
    }
  }

  /** The enum's values are exactly the strings the scorer recognises: every real source scores. */
  lemma EverySourceRecognised(s: LeadSource)
    ensures SourcePoints(Some(s.Value())) > 0
    ensures |SourceReasons(Some(s.Value()))| == 1
  {
  }

  /** The clamp never bites: the raw sum already lies in [0, 100], reaching 100 only at the maximum. */
  lemma ScoreIsRawSum(data: LeadData)
    ensures 0 <= RawScore(data) <= 100
    ensures Evaluate(data).score == RawScore(data)
  {
  }

  /** The recommendation is "transfer_to_sales" exactly when the score reaches the threshold. */
  lemma RecommendationIffThreshold(data: LeadData)
    ensures Evaluate(data).recommendation == TransferToSales <==> Evaluate(data).score >= ScoreThreshold
    ensures Evaluate(data).recommendation == NurtureLead <==> Evaluate(data).score < ScoreThreshold
  {
  }

  /** The domain contribution is 30 exactly when the domain is truthy. */
  lemma DomainPointsIffTruthy(domain: Option<string>)
    ensures DomainPoints(domain) == 30 <==> Truthy(domain)
    ensures DomainPoints(domain) == 0 <==> !Truthy(domain)
  {
  }

  /** The activity contribution by band; an absent count scores as 0. */
  lemma ActivityBands(data: LeadData)
    ensures Activity(data) > 10 ==> ActivityPoints(Activity(data)) == 40
    ensures 3 < Activity(data) <= 10 ==> ActivityPoints(Activity(data)) == 20
    ensures Activity(data) <= 3 ==> ActivityPoints(Activity(data)) == 0
    ensures data.activityCount.None? ==> Evaluate(data) == Evaluate(data.(activityCount := Some(0)))
  {
  }

  /** The result does not depend on the stage key of the snapshot. */
  lemma EvaluateIgnoresStage(data: LeadData, stage: Option<string>)
    ensures Evaluate(data.(stage := stage)) == Evaluate(data)
  {
  }

  /** More activity never lowers the score when everything else is fixed. */
  lemma ScoreMonotoneInActivity(data: LeadData, a: int, b: int)
    requires a <= b
    ensures Evaluate(data.(activityCount := Some(a))).score <= Evaluate(data.(activityCount := Some(b))).score
  {
  }

  /** Joining three clauses puts the separator between neighbours and nowhere else. */
  lemma JoinThree(a: string, b: string, c: string, sep: string)
    ensures Join([a, b, c], sep) == a + sep + b + sep + c
  {
    assert [a, b, c][1..] == [b, c];
    JoinTwo(b, c, sep);
    assert a + sep + (b + sep + c) == a + sep + b + sep + c;
  }

  lemma JoinTwo(a: string, b: string, sep: string)
    ensures Join([a, b], sep) == a + sep + b
  {
    assert [a, b][1..] == [b];
  }

  /**
   * The rationale lists source, domain and activity clauses in that order,
   * joined by " | ": three clauses for a recognised source, two otherwise.
   */
  lemma ReasonLayout(data: LeadData)
    ensures |Reasons(data)| == (if SourcePoints(data.source) > 0 then 3 else 2)
    ensures SourcePoints(data.source) > 0 ==>
      Evaluate(data).reason == SourceReasons(data.source)[0] + ReasonSeparator
        + DomainReasonFor(data.businessDomain) + ReasonSeparator + ActivityReasonFor(Activity(data))
    ensures SourcePoints(data.source) == 0 ==>
      Evaluate(data).reason == DomainReasonFor(data.businessDomain) + ReasonSeparator + ActivityReasonFor(Activity(data))
  {
    var d, a := DomainReasonFor(data.businessDomain), ActivityReasonFor(Activity(data));
    if SourcePoints(data.source) > 0 {
      var s := SourceReasons(data.source)[0];
      assert Reasons(data) == [s, d, a];
      JoinThree(s, d, a, ReasonSeparator);
    } else {
      assert Reasons(data) == [d, a];
      JoinTwo(d, a, ReasonSeparator);
    }
  }

  /** A partner lead with a domain and no activity scores exactly the threshold. */
  lemma PartnerWithDomainReachesThreshold()
    ensures Evaluate(LeadData(Some("partner"), Some("new"), Some("first"), Some(0))).score == 60
    ensures Evaluate(LeadData(Some("partner"), Some("new"), Some("first"), Some(0))).recommendation == TransferToSales
  {
  }

  /** A scanner lead with no domain and two activities scores 0.1 and is nurtured. */
  lemma ScannerWithoutDomainIsNurtured()
    ensures Evaluate(LeadData(Some("scanner"), Some("new"), None, Some(2))).score == 10
    ensures Evaluate(LeadData(Some("scanner"), Some("new"), None, Some(2))).recommendation == NurtureLead
  {
  }
}

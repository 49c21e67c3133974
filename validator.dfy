/** The Validator agent (backend/agents/validator.py): it checks up to five
    claims of the synthesis and records their mean confidence and how many
    were supported or contradicted. */
module Validator {
  import opened Common
  import opened Text
  import opened Validation
  import opened State

  const Name: string := "Validator"
  const MaxClaims: nat := 5
  const NothingToValidate: string := "No summary to validate"
  const Supported: string := "SUPPORTED"
  const Contradicted: string := "CONTRADICTED"

  /** What the outside world answers during one run of the agent: the claim
      extraction reply, the calls made for the `i`-th claim, and an
      exception that escapes the agent's body, if one does. */
  datatype ValidatorPorts = ValidatorPorts(extraction: Outcome<string>, claims: nat -> ClaimPorts, fault: Option<string>)

  /** Python's `sum` over reals. */
  function Sum(xs: seq<real>): real
  {
    if xs == [] then 0.0 else Sum(xs[..|xs| - 1]) + Last(xs)
  }

  /** The confidences of the validations, in order. */
  function Confidences(vs: seq<ClaimCheck>): (r: seq<real>)
    ensures |r| == |vs| && forall i :: 0 <= i < |r| ==> r[i] == vs[i].confidence
  {
    seq(|vs|, i requires 0 <= i < |vs| => vs[i].confidence)
  }

  /** `verdicts.count(verdict)`. */
  function CountVerdict(vs: seq<ClaimCheck>, verdict: string): nat
  {
    if vs == [] then 0
    else CountVerdict(vs[..|vs| - 1], verdict) + (if Last(vs).verdict == verdict then 1 else 0)
  }

  /** The mean confidence of a non-empty list of validations. */
  function Mean(vs: seq<ClaimCheck>): real
    requires vs != []
  {
    Sum(Confidences(vs)) / (|vs| as real)
  }

  /** A sum of values between `lo` and `hi` lies between `n * lo` and `n * hi`. */
  lemma {:induction false} SumBounds(xs: seq<real>, lo: real, hi: real)
    requires forall i :: 0 <= i < |xs| ==> lo <= xs[i] <= hi
    ensures (|xs| as real) * lo <= Sum(xs) <= (|xs| as real) * hi
  {
    if xs != [] {
      SumBounds(xs[..|xs| - 1], lo, hi);
    }
  }

  /** The mean confidence stays within any bounds every confidence keeps,
      so confidences in [0, 1] give an overall confidence in [0, 1]. */
  lemma MeanBounds(vs: seq<ClaimCheck>, lo: real, hi: real)
    requires vs != []
    requires forall i :: 0 <= i < |vs| ==> lo <= vs[i].confidence <= hi
    ensures lo <= Mean(vs) <= hi
  {
    SumBounds(Confidences(vs), lo, hi);
    QuotientBounds(Sum(Confidences(vs)), |vs| as real, lo, hi);
  }

  /** A total between `n * lo` and `n * hi`, divided by a positive `n`, lies between `lo` and `hi`. */
  lemma QuotientBounds(total: real, n: real, lo: real, hi: real)
    requires n > 0.0 && n * lo <= total <= n * hi
    ensures lo <= total / n <= hi
  {
    var m := total / n;
    assert m * n == total;
    assert (m - lo) * n == total - n * lo;
    assert (hi - m) * n == n * hi - total;
  }

  /** No claim is counted both supported and contradicted. */
  lemma {:induction false} VerdictCountsBound(vs: seq<ClaimCheck>)
    ensures CountVerdict(vs, Supported) + CountVerdict(vs, Contradicted) <= |vs|
  {
    if vs != [] {
      VerdictCountsBound(vs[..|vs| - 1]);
    }
  }

  /** The positions of the checks that carry `verdict`. */
  function VerdictPositions(vs: seq<ClaimCheck>, verdict: string): (r: set<nat>)
    ensures forall i :: i in r ==> i < |vs|
  {
    set i: nat | i < |vs| && vs[i].verdict == verdict
  }

  /** One more check adds its position when it carries the verdict. */
  lemma VerdictPositionsSnoc(vs: seq<ClaimCheck>, verdict: string)
    requires vs != []
    ensures VerdictPositions(vs, verdict)
         == VerdictPositions(vs[..|vs| - 1], verdict) + (if Last(vs).verdict == verdict then {|vs| - 1} else {})
  {
    var init := vs[..|vs| - 1];
    var b := VerdictPositions(vs, verdict);
    var c := VerdictPositions(init, verdict) + (if Last(vs).verdict == verdict then {|vs| - 1} else {});
    forall i: nat | i in b
      ensures i in c
    {
      if i < |init| {
        assert init[i] == vs[i];
      }
    }
    forall i: nat | i in c
      ensures i in b
    {
      if i < |init| {
        assert init[i] == vs[i];
      }
    }
  }

  /** `verdicts.count(verdict)` is the number of positions holding that verdict. */
  lemma {:induction false} CountVerdictCounts(vs: seq<ClaimCheck>, verdict: string)
    ensures CountVerdict(vs, verdict) == |VerdictPositions(vs, verdict)|
  {
    if vs != [] {
      var init := vs[..|vs| - 1];
      CountVerdictCounts(init, verdict);
      VerdictPositionsSnoc(vs, verdict);
      assert |vs| - 1 !in VerdictPositions(init, verdict);
    }
  }

  /** The overall confidence of a list of validations: their mean, or 0.5
      when there is none. */
  function OverallConfidence(vs: seq<ClaimCheck>): real
  {
    if vs != [] then Mean(vs) else 0.5
  }

  /** The statistics of a list of validations. */
  function StatsOf(vs: seq<ClaimCheck>): (r: ValidationStats)
    ensures r.Stats? && r.totalClaims == |vs| && r.supported + r.contradicted <= r.totalClaims
    ensures r.supported == CountVerdict(vs, Supported) && r.contradicted == CountVerdict(vs, Contradicted)
    ensures r.confidence == OverallConfidence(vs)
    ensures vs == [] ==> r.supported == 0 && r.contradicted == 0 && r.confidence == 0.5
  {
    VerdictCountsBound(vs);
    Stats(|vs|, CountVerdict(vs, Supported), CountVerdict(vs, Contradicted), OverallConfidence(vs))
  }

  /** The statistics count the checks that were supported and those that
      were contradicted, one by one. */
  lemma StatsCount(vs: seq<ClaimCheck>)
    ensures StatsOf(vs).supported == |VerdictPositions(vs, Supported)|
    ensures StatsOf(vs).contradicted == |VerdictPositions(vs, Contradicted)|
  {
    CountVerdictCounts(vs, Supported);
    CountVerdictCounts(vs, Contradicted);
  }

  /** What `execute` returns. Only the validations, the confidence, the
      statistics, the error and the logs can change. */
  function Validate(s: ResearchState, ports: ValidatorPorts, parseFloat: string -> Option<real>, fmt: Formatter, now: string)
    : (r: ResearchState)
    ensures LogsOneMore(s, r) && Last(r.agentLogs).agent == Name
    ensures r == s.(validations := r.validations, overallConfidence := r.overallConfidence,
                    validationStats := r.validationStats, agentLogs := r.agentLogs, error := r.error)
    ensures ports.fault.None? && s.combinedSummary == "" ==>
      && r.validations == [] && r.overallConfidence == 0.0 && r.validationStats == s.validationStats
      && Last(r.agentLogs).status == "skipped"
    ensures ports.fault.None? && s.combinedSummary != "" ==>
      && r.validations == ClaimChecks(ExtractClaims(ports.extraction, MaxClaims), ports.claims, parseFloat)
      && |r.validations| <= MaxClaims
      && r.validationStats == StatsOf(r.validations)
      && r.validationStats.confidence == r.overallConfidence
      && (r.validations != [] ==> r.overallConfidence == Mean(r.validations))
      && (r.validations == [] ==> r.overallConfidence == 0.5)
      && Last(r.agentLogs).status == "completed"
      && Last(r.agentLogs).data == ValidationData(|r.validations|, r.overallConfidence,
                                                  r.validationStats.supported, r.validationStats.contradicted)
    ensures ports.fault.None? ==> r.error == s.error
    ensures ports.fault.Some? ==> r.error == ports.fault.value && r.validations == [] && r.overallConfidence == 0.5
    ensures ports.fault.Some? ==> r == WithError(s, Name, ports.fault.value, now).(validations := [], overallConfidence := 0.5)
  {
    if ports.fault.Some? then
      WithError(s, Name, ports.fault.value, now).(validations := [], overallConfidence := 0.5)
    else if s.combinedSummary == "" then
      s.(validations := [], overallConfidence := 0.0,
         agentLogs := s.agentLogs + [LogEntry(Name, "skipped", NothingToValidate, now, NoData)])
    else
      var vs := ClaimChecks(ExtractClaims(ports.extraction, MaxClaims), ports.claims, parseFloat);
      var stats := StatsOf(vs);
      var confidence := OverallConfidence(vs);
      s.(validations := vs, overallConfidence := confidence, validationStats := stats,
         agentLogs := s.agentLogs + [LogEntry(Name, "completed",
           "Validated " + NatToString(|vs|) + " claims (confidence: " + fmt.fixed2(confidence) + ")", now,
           ValidationData(|vs|, confidence, stats.supported, stats.contradicted))])
  }

  /** When every claim check reports a confidence in [0, 1], so does the
      overall confidence the Validator records. */
  lemma ValidatedConfidenceInUnit(s: ResearchState, ports: ValidatorPorts, parseFloat: string -> Option<real>, fmt: Formatter, now: string)
    requires ports.fault.None? && s.combinedSummary != ""
    requires var vs := Validate(s, ports, parseFloat, fmt, now).validations;
             forall i :: 0 <= i < |vs| ==> 0.0 <= vs[i].confidence <= 1.0
    ensures 0.0 <= Validate(s, ports, parseFloat, fmt, now).overallConfidence <= 1.0
  {
    var vs := Validate(s, ports, parseFloat, fmt, now).validations;
    if vs != [] {
      MeanBounds(vs, 0.0, 1.0);
    }
  }
}

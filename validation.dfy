/** Claim extraction and fact checking (backend/utils/validation.py): the
    LLM lists claims one per line, and each claim is checked against web
    evidence by an LLM whose "VERDICT:/CONFIDENCE:/EXPLANATION:" reply is
    parsed line by line. */
module Validation {
  import opened Common
  import opened Text
  import opened WebSearch

  /** The record `validate_claim` returns. */
  datatype ClaimCheck = ClaimCheck(claim: string, verdict: string, confidence: real, explanation: string, sources: seq<string>)

  /** The three values parsed out of a fact-checking reply. */
  datatype Assessment = Assessment(verdict: string, confidence: real, explanation: string)

  /** What the outside world answers while one claim is checked: the results
      of the web search for "verify: " followed by the claim (that search
      never raises), and the LLM call, which raises, or returns a response. */
  datatype ClaimPorts = ClaimPorts(evidence: seq<SearchResult>, reply: Outcome<ClaimReply>)

  /** A response of the fact-checking call: without any choice, with a
      first choice whose content is None, or with a first choice's text. */
  datatype ClaimReply = NoChoices | NullContent | Content(text: string)

  const VerdictTag: string := "VERDICT:"
  const ConfidenceTag: string := "CONFIDENCE:"
  const ExplanationTag: string := "EXPLANATION:"
  const DefaultVerdict: string := "INSUFFICIENT_EVIDENCE"
  const DefaultConfidence: real := 0.5

  /** `str(e)` of the AttributeError raised by `.strip()` on a None content. */
  const NoneStripError: string := "'NoneType' object has no attribute 'strip'"

  /** `str(e)` of the IndexError raised by `choices[0]` on an empty list. */
  const IndexError: string := "list index out of range"

  /** `line.split(":", 1)[1].strip()`. */
  function ColonValue(line: string): string
    requires ':' in line
  {
    Strip(AfterFirst(line, ':'))
  }

  /** The value a line gives the verdict: the stripped text after the tag. */
  function VerdictLine(line: string): Option<string>
  {
    if StartsWith(line, VerdictTag) then Some(Strip(line[|VerdictTag|..])) else None
  }

  /** The value a line gives the explanation. */
  function ExplanationLine(line: string): Option<string>
  {
    if StartsWith(line, ExplanationTag) then Some(Strip(line[|ExplanationTag|..])) else None
  }

  /** The value a line gives the confidence: the float after the tag, when
      the rest of the line parses as one. */
  function ConfidenceLine(line: string, parseFloat: string -> Option<real>): Option<real>
  {
    if StartsWith(line, ConfidenceTag) then parseFloat(Strip(line[|ConfidenceTag|..])) else None
  }

  /** `ConfidenceLine` as a function of the line alone. */
  function ConfidenceReader(parseFloat: string -> Option<real>): string -> Option<real>
  {
    line => ConfidenceLine(line, parseFloat)
  }

  /** The index of the last line that gives a value under `f`, or -1 when
      no line does. */
  function LastSet<T>(lines: seq<string>, f: string -> Option<T>): (k: int)
    ensures -1 <= k < |lines|
    ensures k >= 0 ==> f(lines[k]).Some?
    ensures forall j :: k < j < |lines| ==> f(lines[j]).None?
  {
    if lines == [] then -1
    else if f(Last(lines)).Some? then |lines| - 1
    else LastSet(lines[..|lines| - 1], f)
  }

  /** The value given by the last line that gives one under `f`. */
  function LastValue<T>(lines: seq<string>, f: string -> Option<T>): Option<T>
  {
    var k := LastSet(lines, f);
    if k < 0 then None else f(lines[k])
  }

  /** What parsing the given lines of `text` yields: for each field, the
      value on the last line that sets it, else its default (the whole text
      for the explanation). */
  function AssessLines(lines: seq<string>, text: string, parseFloat: string -> Option<real>): Assessment
  {
    Assessment(
      OrElse(LastValue(lines, VerdictLine), DefaultVerdict),
      OrElse(LastValue(lines, ConfidenceReader(parseFloat)), DefaultConfidence),
      OrElse(LastValue(lines, ExplanationLine), text))
  }

  /** The assessment parsed from a (stripped) reply text. */
  function AssessmentOf(text: string, parseFloat: string -> Option<real>): Assessment
  {
    AssessLines(SplitOn(text, '\n'), text, parseFloat)
  }

  /** One more line moves the last setting line to it when it sets a value. */
  lemma LastValueSnoc<T>(lines: seq<string>, line: string, f: string -> Option<T>)
    ensures LastValue(lines + [line], f) == if f(line).Some? then f(line) else LastValue(lines, f)
  {
    var ext := lines + [line];
    assert ext[..|lines|] == lines;
    assert Last(ext) == line;
    var k := LastSet(lines, f);
    assert k >= 0 ==> ext[k] == lines[k];
  }

  /** How one more line changes the parsed assessment: a tagged line sets
      its field (a confidence only when it parses), any other line changes
      nothing. The three tags exclude each other. */
  lemma AssessSnoc(lines: seq<string>, line: string, text: string, parseFloat: string -> Option<real>)
    ensures var a := AssessLines(lines, text, parseFloat);
            var b := AssessLines(lines + [line], text, parseFloat);
            && (StartsWith(line, VerdictTag) ==> b == a.(verdict := Strip(line[|VerdictTag|..])))
            && (StartsWith(line, ConfidenceTag) ==>
                  var c := parseFloat(Strip(line[|ConfidenceTag|..]));
                  b == if c.Some? then a.(confidence := c.value) else a)
            && (StartsWith(line, ExplanationTag) ==> b == a.(explanation := Strip(line[|ExplanationTag|..])))
            && (!StartsWith(line, VerdictTag) && !StartsWith(line, ConfidenceTag) && !StartsWith(line, ExplanationTag) ==> b == a)
  {
    LastValueSnoc(lines, line, VerdictLine);
    LastValueSnoc(lines, line, ConfidenceReader(parseFloat));
    LastValueSnoc(lines, line, ExplanationLine);
    TagsExclusive(line);
  }

  /** No line starts with two of the tags. */
  lemma TagsExclusive(line: string)
    ensures StartsWith(line, VerdictTag) ==> !StartsWith(line, ConfidenceTag) && !StartsWith(line, ExplanationTag)
    ensures StartsWith(line, ConfidenceTag) ==> !StartsWith(line, ExplanationTag)
  {
    if StartsWith(line, VerdictTag) {
      assert line[0] == 'V';
    } else if StartsWith(line, ConfidenceTag) {
      assert line[0] == 'C';
    }
  }

  /** On a tagged line, the text after the first colon is the text after the tag. */
  lemma TaggedColonValue(line: string, tag: string)
    requires tag == VerdictTag || tag == ConfidenceTag || tag == ExplanationTag
    requires StartsWith(line, tag)
    ensures ':' in line && ColonValue(line) == Strip(line[|tag|..])
  {
    AfterTag(line, tag);
  }

  /** One pass of the parser's loop: a line starting with a tag overwrites
      that field with the stripped text after its first colon; a confidence
      that does not parse is ignored. */
  function ParseStep(a: Assessment, line: string, parseFloat: string -> Option<real>): Assessment
  {
    if StartsWith(line, VerdictTag) then
      TaggedColonValue(line, VerdictTag);
      a.(verdict := ColonValue(line))
    else if StartsWith(line, ConfidenceTag) then
      TaggedColonValue(line, ConfidenceTag);
      var c := parseFloat(ColonValue(line));
      if c.Some? then a.(confidence := c.value) else a
    else if StartsWith(line, ExplanationTag) then
      TaggedColonValue(line, ExplanationTag);
      a.(explanation := ColonValue(line))
    else a
  }

  /** The parser's loop run over `lines`, starting from the defaults. */
  function Parsed(lines: seq<string>, text: string, parseFloat: string -> Option<real>): Assessment
  {
    if lines == [] then Assessment(DefaultVerdict, DefaultConfidence, text)
    else ParseStep(Parsed(lines[..|lines| - 1], text, parseFloat), Last(lines), parseFloat)
  }

  /** Running the loop line by line gives, for each field, the value of the
      last line that sets it, or the default when no line does. */
  lemma {:induction false} ParsedLastWins(lines: seq<string>, text: string, parseFloat: string -> Option<real>)
    ensures Parsed(lines, text, parseFloat) == AssessLines(lines, text, parseFloat)
  {
    if lines != [] {
      var seen, line := lines[..|lines| - 1], Last(lines);
      assert lines == seen + [line];
      ParsedLastWins(seen, text, parseFloat);
      if StartsWith(line, VerdictTag) {
        TaggedColonValue(line, VerdictTag);
        VerdictLineSets(seen, line, lines, text, parseFloat);
      } else if StartsWith(line, ConfidenceTag) {
        TaggedColonValue(line, ConfidenceTag);
        ConfidenceLineSets(seen, line, lines, text, parseFloat);
      } else if StartsWith(line, ExplanationTag) {
        TaggedColonValue(line, ExplanationTag);
        ExplanationLineSets(seen, line, lines, text, parseFloat);
      } else {
        OtherLineKeeps(seen, line, lines, text, parseFloat);
      }
    }
  }

  /** The line-by-line parser of `validate_claim`. */
  method ParseAssessment(text: string, parseFloat: string -> Option<real>) returns (a: Assessment)
    ensures a == AssessmentOf(text, parseFloat)
  {
    var lines := SplitOn(text, '\n');
    a := Assessment(DefaultVerdict, DefaultConfidence, text);
    for i := 0 to |lines|
      invariant a == Parsed(lines[..i], text, parseFloat)
    {
      var line := lines[i];
      assert lines[..i + 1][..i] == lines[..i];
      if StartsWith(line, VerdictTag) {
        TaggedColonValue(line, VerdictTag);
        a := a.(verdict := ColonValue(line));
      } else if StartsWith(line, ConfidenceTag) {
        TaggedColonValue(line, ConfidenceTag);
        var c := parseFloat(ColonValue(line));
        if c.Some? {
          a := a.(confidence := c.value);
        }
      } else if StartsWith(line, ExplanationTag) {
        TaggedColonValue(line, ExplanationTag);
        a := a.(explanation := ColonValue(line));
      }
    }
    assert lines[..|lines|] == lines;
    ParsedLastWins(lines, text, parseFloat);
  }

  /** The URLs of the evidence, in order. */
  function Urls(evidence: seq<SearchResult>): (r: seq<string>)
    ensures |r| == |evidence| && forall i :: 0 <= i < |r| ==> r[i] == evidence[i].url
  {
    seq(|evidence|, i requires 0 <= i < |evidence| => evidence[i].url)
  }

  /** The record `validate_claim` returns for the given answers of the
      outside world: a mock SUPPORTED record when the LLM call raises, an
      ERROR record when the response has no choice or its content is None
      (both raise after the call, in reach of the outer handler only), else the parsed assessment of
      the stripped reply with the evidence URLs as sources. */
  function ClaimCheckOf(claim: string, ports: ClaimPorts, parseFloat: string -> Option<real>): (r: ClaimCheck)
    ensures r.claim == claim
    ensures ports.reply.Fail? ==> r.verdict == "SUPPORTED" && r.confidence == 0.7 && r.sources == []
    ensures ports.reply.Ok? && !ports.reply.value.Content? ==> r.verdict == "ERROR" && r.confidence == 0.0 && r.sources == []
    ensures ports.reply.Ok? && ports.reply.value.Content? ==> r.sources == Urls(ports.evidence)
  {
    match ports.reply
    case Fail(_) => ClaimCheck(claim, "SUPPORTED", 0.7, "Validation skipped due to API limits", [])
    case Ok(NoChoices) => ClaimCheck(claim, "ERROR", 0.0, "Validation error: " + IndexError, [])
    case Ok(NullContent) => ClaimCheck(claim, "ERROR", 0.0, "Validation error: " + NoneStripError, [])
    case Ok(Content(content)) =>
      var a := AssessmentOf(Strip(content), parseFloat);
      ClaimCheck(claim, a.verdict, a.confidence, a.explanation, Urls(ports.evidence))
  }

  /** `validate_claim`. */
  method ValidateClaim(claim: string, ports: ClaimPorts, parseFloat: string -> Option<real>) returns (r: ClaimCheck)
    ensures r == ClaimCheckOf(claim, ports, parseFloat)
  {
    match ports.reply {
      case Fail(_) =>
        r := ClaimCheck(claim, "SUPPORTED", 0.7, "Validation skipped due to API limits", []);
      case Ok(NoChoices) =>
        r := ClaimCheck(claim, "ERROR", 0.0, "Validation error: " + IndexError, []);
      case Ok(NullContent) =>
        r := ClaimCheck(claim, "ERROR", 0.0, "Validation error: " + NoneStripError, []);
      case Ok(Content(content)) =>
        var a := ParseAssessment(Strip(content), parseFloat);
        r := ClaimCheck(claim, a.verdict, a.confidence, a.explanation, Urls(ports.evidence));
    }
  }

  /** A reply in the format the fact-checking prompt asks for. */
  function FormatReply(verdict: string, confidence: string, explanation: string): string
  {
    VerdictTag + " " + verdict + "\n" + ConfidenceTag + " " + confidence + "\n" + ExplanationTag + " " + explanation
  }

  /** One field value as the prompt's format allows it: a single line with
      no whitespace at either end. */
  predicate FieldValue(v: string)
  {
    IsStripped(v) && '\n' !in v
  }

  /** Stripping a space put before a stripped string gives the string back. */
  lemma StripAfterSpace(v: string)
    requires IsStripped(v)
    ensures Strip(" " + v) == v
  {
    assert (" " + v)[1..] == v;
    assert TrimStart(" " + v) == TrimStart(v);
    StripStripped(v);
  }

  /** A reply in the requested format is already stripped and splits into its three lines. */
  lemma FormattedLines(verdict: string, confidence: string, explanation: string)
    requires FieldValue(verdict) && FieldValue(confidence) && FieldValue(explanation) && explanation != []
    ensures var text := FormatReply(verdict, confidence, explanation);
            && Strip(text) == text
            && SplitOn(text, '\n') == [VerdictTag + " " + verdict, ConfidenceTag + " " + confidence, ExplanationTag + " " + explanation]
  {
    var l0, l1, l2 := VerdictTag + " " + verdict, ConfidenceTag + " " + confidence, ExplanationTag + " " + explanation;
    var text := FormatReply(verdict, confidence, explanation);
    assert text == l0 + "\n" + l1 + "\n" + l2;
    JoinThree(l0, l1, l2);
    FormattedStripped(l0, l1, l2, explanation);
    StripStripped(text);
    assert '\n' !in VerdictTag + " " && '\n' !in ConfidenceTag + " " && '\n' !in ExplanationTag + " ";
    SplitJoin([l0, l1, l2], '\n');
  }

  /** Three lines joined by line breaks. */
  lemma JoinThree(l0: string, l1: string, l2: string)
    ensures JoinWith("\n", [l0, l1, l2]) == l0 + "\n" + l1 + "\n" + l2
  {
    var lines := [l0, l1, l2];
    assert lines[1..] == [l1, l2] && lines[1..][1..] == [l2];
    assert JoinWith("\n", [l1, l2]) == l1 + "\n" + l2;
    assert l0 + "\n" + (l1 + "\n" + l2) == l0 + "\n" + l1 + "\n" + l2;
  }

  /** A verdict line first and a line ending in the explanation last make a stripped text. */
  lemma FormattedStripped(l0: string, l1: string, l2: string, explanation: string)
    requires StartsWith(l0, VerdictTag)
    requires IsStripped(explanation) && explanation != [] && |l2| >= |explanation|
    requires l2[|l2| - |explanation|..] == explanation
    ensures IsStripped(l0 + "\n" + l1 + "\n" + l2)
  {
    var text := l0 + "\n" + l1 + "\n" + l2;
    assert text[0] == l0[0] == 'V';
    assert text[|text| - 1] == l2[|l2| - 1] == explanation[|explanation| - 1];
  }

  /** A tag, a space and a stripped value: the line starts with the tag,
      and the stripped text after the tag is the value. */
  lemma TagLine(tag: string, v: string)
    requires IsStripped(v)
    ensures StartsWith(tag + " " + v, tag) && Strip((tag + " " + v)[|tag|..]) == v
  {
    assert (tag + " " + v)[|tag|..] == " " + v;
    StripAfterSpace(v);
  }

  /** A verdict line, a confidence line and an explanation line, in this
      order, set all three fields. */
  lemma AssessThreeLines(l0: string, l1: string, l2: string, text: string, parseFloat: string -> Option<real>,
                         verdict: string, c: real, explanation: string)
    requires StartsWith(l0, VerdictTag) && Strip(l0[|VerdictTag|..]) == verdict
    requires StartsWith(l1, ConfidenceTag) && parseFloat(Strip(l1[|ConfidenceTag|..])) == Some(c)
    requires StartsWith(l2, ExplanationTag) && Strip(l2[|ExplanationTag|..]) == explanation
    ensures AssessLines([l0, l1, l2], text, parseFloat) == Assessment(verdict, c, explanation)
  {
    ThreeSnocs(l0, l1, l2);
    assert AssessLines([l0], text, parseFloat) == Assessment(verdict, DefaultConfidence, text) by {
      VerdictLineSets([], l0, [l0], text, parseFloat);
    }
    assert AssessLines([l0, l1], text, parseFloat) == Assessment(verdict, c, text) by {
      ConfidenceLineSets([l0], l1, [l0, l1], text, parseFloat);
    }
    ExplanationLineSets([l0, l1], l2, [l0, l1, l2], text, parseFloat);
  }

  /** A list of three built by appending one element at a time. */
  lemma ThreeSnocs<T>(x: T, y: T, z: T)
    ensures [x] == [] + [x] && [x, y] == [x] + [y] && [x, y, z] == [x, y] + [z]
  {
  }

  /** A verdict line sets the verdict. */
  lemma VerdictLineSets(lines: seq<string>, line: string, next: seq<string>, text: string, parseFloat: string -> Option<real>)
    requires StartsWith(line, VerdictTag) && next == lines + [line]
    ensures AssessLines(next, text, parseFloat) == AssessLines(lines, text, parseFloat).(verdict := Strip(line[|VerdictTag|..]))
  {
    AssessSnoc(lines, line, text, parseFloat);
  }

  /** A confidence line sets the confidence when its value parses, and
      changes nothing otherwise. */
  lemma ConfidenceLineSets(lines: seq<string>, line: string, next: seq<string>, text: string, parseFloat: string -> Option<real>)
    requires StartsWith(line, ConfidenceTag) && next == lines + [line]
    ensures var c := parseFloat(Strip(line[|ConfidenceTag|..]));
            var a := AssessLines(lines, text, parseFloat);
            AssessLines(next, text, parseFloat) == if c.Some? then a.(confidence := c.value) else a
  {
    AssessSnoc(lines, line, text, parseFloat);
    TagsExclusive(line);
  }

  /** A line with none of the three tags changes nothing. */
  lemma OtherLineKeeps(lines: seq<string>, line: string, next: seq<string>, text: string, parseFloat: string -> Option<real>)
    requires !StartsWith(line, VerdictTag) && !StartsWith(line, ConfidenceTag) && !StartsWith(line, ExplanationTag)
    requires next == lines + [line]
    ensures AssessLines(next, text, parseFloat) == AssessLines(lines, text, parseFloat)
  {
    AssessSnoc(lines, line, text, parseFloat);
  }

  /** An explanation line sets the explanation. */
  lemma ExplanationLineSets(lines: seq<string>, line: string, next: seq<string>, text: string, parseFloat: string -> Option<real>)
    requires StartsWith(line, ExplanationTag) && next == lines + [line]
    ensures AssessLines(next, text, parseFloat) == AssessLines(lines, text, parseFloat).(explanation := Strip(line[|ExplanationTag|..]))
  {
    AssessSnoc(lines, line, text, parseFloat);
    TagsExclusive(line);
  }

  /** A reply written in the requested format parses back to its verdict,
      its explanation and the float its confidence text denotes. */
  lemma ParseFormattedReply(verdict: string, confidence: string, explanation: string, parseFloat: string -> Option<real>, c: real)
    requires FieldValue(verdict) && FieldValue(confidence) && FieldValue(explanation) && explanation != []
    requires parseFloat(confidence) == Some(c)
    ensures AssessmentOf(Strip(FormatReply(verdict, confidence, explanation)), parseFloat)
         == Assessment(verdict, c, explanation)
  {
    FormattedLines(verdict, confidence, explanation);
    TagLine(VerdictTag, verdict);
    TagLine(ConfidenceTag, confidence);
    TagLine(ExplanationTag, explanation);
    AssessThreeLines(VerdictTag + " " + verdict, ConfidenceTag + " " + confidence, ExplanationTag + " " + explanation,
                     FormatReply(verdict, confidence, explanation), parseFloat, verdict, c, explanation);
  }

  /** The claims of a reply: its lines stripped, the blank ones dropped. */
  function ClaimLines(lines: seq<string>): (r: seq<string>)
    ensures |r| <= |lines|
    ensures forall k :: 0 <= k < |r| ==> r[k] != [] && IsStripped(r[k])
  {
    if lines == [] then []
    else
      var c := Strip(Last(lines));
      ClaimLines(lines[..|lines| - 1]) + (if c == [] then [] else [c])
  }

  /** Stripping adds no line break, so claims taken from lines without one
      have none either. */
  lemma {:induction false} ClaimLinesNoBreak(lines: seq<string>)
    requires forall k :: 0 <= k < |lines| ==> '\n' !in lines[k]
    ensures forall k :: 0 <= k < |ClaimLines(lines)| ==> '\n' !in ClaimLines(lines)[k]
  {
    if lines != [] {
      var init := lines[..|lines| - 1];
      ClaimLinesNoBreak(init);
      StripKeeps(Last(lines), '\n');
    }
  }

  /** `_extract_claims`: the claims of the stripped reply, at most
      `maxClaims` of them; none when the LLM call raises or returns no text. */
  function ExtractClaims(reply: Outcome<string>, maxClaims: nat): (r: seq<string>)
    ensures |r| <= maxClaims
    ensures forall k :: 0 <= k < |r| ==> r[k] != [] && IsStripped(r[k]) && '\n' !in r[k]
  {
    match reply
    case Fail(_) => []
    case Ok(content) =>
      ClaimLinesNoBreak(SplitOn(Strip(content), '\n'));
      Take(ClaimLines(SplitOn(Strip(content), '\n')), maxClaims)
  }

  /** Lines that are already claims are kept as they are. */
  lemma {:induction false} ClaimLinesOfClaims(claims: seq<string>)
    requires forall k :: 0 <= k < |claims| ==> claims[k] != [] && IsStripped(claims[k])
    ensures ClaimLines(claims) == claims
  {
    if claims != [] {
      var init := claims[..|claims| - 1];
      ClaimLinesOfClaims(init);
      StripStripped(Last(claims));
      assert ClaimLines(claims) == ClaimLines(init) + [Last(claims)];
      assert init + [Last(claims)] == claims;
    }
  }

  /** Claims written one per line are extracted back, cut to `maxClaims`. */
  lemma ExtractClaimsRoundTrip(claims: seq<string>, maxClaims: nat)
    requires forall k :: 0 <= k < |claims| ==> claims[k] != [] && IsStripped(claims[k]) && '\n' !in claims[k]
    ensures ExtractClaims(Ok(JoinWith("\n", claims)), maxClaims) == Take(claims, maxClaims)
  {
    ClaimLinesOfClaims(claims);
    if claims == [] {
      assert SplitOn("", '\n') == [""];
    } else {
      var text := JoinWith("\n", claims);
      JoinEnds("\n", claims);
      assert text[0] == claims[0][0];
      assert text[|text| - 1] == Last(claims)[|Last(claims)| - 1];
      StripStripped(text);
      SplitJoin(claims, '\n');
    }
  }

  /** The records of the checked claims, one per claim, in order. */
  function ClaimChecks(claims: seq<string>, ports: nat -> ClaimPorts, parseFloat: string -> Option<real>): (r: seq<ClaimCheck>)
    ensures |r| == |claims| && forall i :: 0 <= i < |r| ==> r[i].claim == claims[i]
  {
    var r := seq(|claims|, i requires 0 <= i < |claims| => ClaimCheckOf(claims[i], ports(i), parseFloat));
    assert forall i :: 0 <= i < |r| ==> r[i] == ClaimCheckOf(claims[i], ports(i), parseFloat);
    r
  }

  /** `extract_and_validate_claims`: extracts the claims of the text and
      checks them one after another. `ports(i)` answers the calls made for
      the `i`-th claim. */
  method ExtractAndValidate(extraction: Outcome<string>, maxClaims: nat, ports: nat -> ClaimPorts, parseFloat: string -> Option<real>)
    returns (validations: seq<ClaimCheck>)
    ensures validations == ClaimChecks(ExtractClaims(extraction, maxClaims), ports, parseFloat)
    ensures |validations| <= maxClaims
  {
    var claims := ExtractClaims(extraction, maxClaims);
    validations := ValidateAll(claims, ports, parseFloat);
  }

  /** The loop of `extract_and_validate_claims`: one `validate_claim` per
      claim, appended in order. */
  method ValidateAll(claims: seq<string>, ports: nat -> ClaimPorts, parseFloat: string -> Option<real>)
    returns (validations: seq<ClaimCheck>)
    ensures validations == ClaimChecks(claims, ports, parseFloat)
  {
    validations := [];
    for i := 0 to |claims|
      invariant validations == ClaimChecks(claims[..i], ports, parseFloat)
    {
      var v := ValidateClaim(claims[i], ports(i), parseFloat);
      ClaimChecksStep(claims, i, ports, parseFloat);
      validations := validations + [v];
    }
    assert claims[..|claims|] == claims;
  }

  /** Checking one more claim appends its record. */
  lemma ClaimChecksStep(claims: seq<string>, i: nat, ports: nat -> ClaimPorts, parseFloat: string -> Option<real>)
    requires i < |claims|
    ensures ClaimChecks(claims[..i + 1], ports, parseFloat)
         == ClaimChecks(claims[..i], ports, parseFloat) + [ClaimCheckOf(claims[i], ports(i), parseFloat)]
  {
  }
}

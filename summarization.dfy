/** The summarisation helpers (backend/utils/summarization.py): the prompt
    chosen by style, the word-truncating summary used when the LLM call
    raises, and the labelled text and join fallback of `combine_summaries`. */
module Summarization {
  import opened Common
  import opened Text

  const SummaryPrefix: string := "📝 Summary: "
  const Ellipsis: string := "..."

  /** The summary `summarize_text` returns when the LLM call raises: the
      first `maxLength` words of the text joined by single spaces, and
      "..." when as many words as `maxLength` were kept. */
  function FallbackSummary(text: string, maxLength: nat): string
  {
    var words := Take(Words(text), maxLength);
    var summary := JoinWith(" ", words);
    SummaryPrefix + (if |words| == maxLength then summary + Ellipsis else summary)
  }

  /** The fallback summary is the prefix, then the first `maxLength` words
      of the input joined by single spaces, then "..." exactly when the input
      had at least `maxLength` words (so also when it had exactly
      `maxLength`). */
  lemma FallbackSummaryShape(text: string, maxLength: nat)
    ensures FallbackSummary(text, maxLength)
         == SummaryPrefix + JoinWith(" ", Take(Words(text), maxLength))
            + (if |Words(text)| >= maxLength then Ellipsis else "")
  {
    var words := Take(Words(text), maxLength);
    var summary := JoinWith(" ", words);
    assert |words| == maxLength <==> |Words(text)| >= maxLength;
    assert summary + "" == summary;
  }

  /** Splitting the middle of the fallback summary again gives back the
      words it was made of. */
  lemma FallbackSummaryWords(text: string, maxLength: nat)
    ensures Words(JoinWith(" ", Take(Words(text), maxLength))) == Take(Words(text), maxLength)
  {
    var ws := Words(text);
    WordsAreWords(text);
    TakeWords(ws, maxLength);
    WordsOfJoined(Take(ws, maxLength));
  }

  /** The first words of a list of words are words. */
  lemma TakeWords(ws: seq<string>, n: nat)
    requires forall k :: 0 <= k < |ws| ==> ws[k] != [] && NoSpace(ws[k])
    ensures forall k :: 0 <= k < |Take(ws, n)| ==> Take(ws, n)[k] != [] && NoSpace(Take(ws, n)[k])
  {
    var t := Take(ws, n);
    assert forall k :: 0 <= k < |t| ==> t[k] == ws[k];
  }

  /** `summarize_text`: the stripped reply of the LLM, or the fallback
      summary when the call raises. */
  function SummarizeText(text: string, maxLength: nat, reply: Outcome<string>): string
  {
    match reply
    case Ok(content) => Strip(content)
    case Fail(_) => FallbackSummary(text, maxLength)
  }

  /** A summary from the LLM is stripped, and empty only for a blank reply;
      a fallback summary starts with the summary prefix. */
  lemma SummarizeTextShape(text: string, maxLength: nat, reply: Outcome<string>)
    ensures var r := SummarizeText(text, maxLength, reply);
            && (reply.Ok? ==> IsStripped(r) && (r == [] <==> IsBlank(reply.value)))
            && (reply.Fail? ==> |r| >= |SummaryPrefix| && r[..|SummaryPrefix|] == SummaryPrefix)
  {
  }

  /** "Source {i}: {s}" for the `i`-th summary, counting from 1. */
  function SourceLabel(i: nat, summary: string): string
  {
    "Source " + NatToString(i) + ": " + summary
  }

  /** The labelled summaries of `combine_summaries`, in input order. */
  function SourceLabels(summaries: seq<string>): (r: seq<string>)
    ensures |r| == |summaries|
    ensures forall i :: 0 <= i < |r| ==> r[i] == SourceLabel(i + 1, summaries[i])
  {
    if summaries == [] then []
    else SourceLabels(summaries[..|summaries| - 1]) + [SourceLabel(|summaries|, Last(summaries))]
  }

  /** The combined text inside the prompt of `combine_summaries`. */
  function CombinedText(summaries: seq<string>): string
  {
    JoinWith("\n\n", SourceLabels(summaries))
  }

  /** The text of the `combine_summaries` prompt before the combined summaries. */
  function CombineOpening(query: string): string
  {
    "Given the following summaries from multiple sources about \"" + query + "\", \n"
    + "create a cohesive, well-structured summary that synthesizes the key information.\n\n"
    + "Summaries:\n"
  }

  /** The text of the `combine_summaries` prompt after the combined summaries. */
  const CombineClosing: string :=
    "\n\n"
    + "Please provide a comprehensive summary that:\n"
    + "1. Identifies the main themes\n"
    + "2. Highlights key insights\n"
    + "3. Notes any contradictions or disagreements\n"
    + "4. Organizes information logically\n"

  /** The prompt `combine_summaries` sends. */
  function CombinePrompt(summaries: seq<string>, query: string): string
  {
    CombineOpening(query) + CombinedText(summaries) + CombineClosing
  }

  /** The prompt carries the labelled summaries unchanged between its fixed
      parts, the first one labelled "Source 1: ". */
  lemma CombinePromptParts(summaries: seq<string>, query: string)
    ensures var p := CombinePrompt(summaries, query);
            var o := CombineOpening(query);
            var c := CombinedText(summaries);
            && |p| == |o| + |c| + |CombineClosing|
            && p[..|o|] == o
            && p[|o|..|o| + |c|] == c
            && p[|o| + |c|..] == CombineClosing
    ensures summaries != [] ==>
            var c := CombinedText(summaries);
            var first := SourceLabel(1, summaries[0]);
            |c| >= |first| && c[..|first|] == first
  {
    var o := CombineOpening(query);
    var c := CombinedText(summaries);
    var p := CombinePrompt(summaries, query);
    assert p == o + c + CombineClosing;
    assert p[..|o|] == o;
    assert p[|o|..|o| + |c|] == c;
    assert p[|o| + |c|..] == CombineClosing;
    if summaries != [] {
      JoinEnds("\n\n", SourceLabels(summaries));
    }
  }

  /** `combine_summaries`: the stripped reply of the LLM, or the summaries
      joined by blank lines when the call raises. */
  function CombineSummaries(summaries: seq<string>, reply: Outcome<string>): (r: string)
    ensures reply.Ok? ==> r == Strip(reply.value)
    ensures reply.Fail? ==> r == JoinWith("\n\n", summaries)
    ensures reply.Fail? && |summaries| == 1 ==> r == summaries[0]
    ensures reply.Fail? && |summaries| >= 1 ==> |r| >= |summaries[0]| && r[..|summaries[0]|] == summaries[0]
  {
    match reply
    case Ok(content) => Strip(content)
    case Fail(_) =>
      if |summaries| >= 1 then JoinEnds("\n\n", summaries); JoinWith("\n\n", summaries)
      else JoinWith("\n\n", summaries)
  }

  const ConciseStyle: string := "concise"
  const DetailedStyle: string := "detailed"
  const BulletStyle: string := "bullet_points"

  /** The instruction table of `_build_prompt`, keyed by style. */
  function StyleInstructions(maxLength: nat): map<string, string>
  {
    map[
      ConciseStyle := "Provide a concise summary in approximately " + NatToString(maxLength) + " words.",
      DetailedStyle := "Provide a detailed summary in approximately " + NatToString(maxLength) + " words.",
      BulletStyle := "Provide a summary as bullet points (maximum " + NatToString(maxLength) + " words total)."
    ]
  }

  /** `style_instructions.get(style, style_instructions["concise"])`. */
  function StyleInstruction(style: string, maxLength: nat): string
  {
    var table := StyleInstructions(maxLength);
    if style in table then table[style] else table[ConciseStyle]
  }

  /** A style the table does not know gets the concise instruction. */
  lemma UnknownStyleIsConcise(style: string, maxLength: nat)
    requires style != ConciseStyle && style != DetailedStyle && style != BulletStyle
    ensures StyleInstruction(style, maxLength) == StyleInstruction(ConciseStyle, maxLength)
  {
  }

  const TextHeader: string := "\n\nText to summarize:\n"
  const SummaryTrailer: string := "\n\nSummary:"

  /** `_build_prompt`: the instruction, then the text, then "Summary:". */
  function BuildPrompt(text: string, maxLength: nat, style: string): string
  {
    StyleInstruction(style, maxLength) + TextHeader + text + SummaryTrailer
  }

  /** The prompt starts with the style's instruction, ends with the trailer,
      and the text sits between them unchanged, so it can be cut back out. */
  lemma BuildPromptParts(text: string, maxLength: nat, style: string)
    ensures var p := BuildPrompt(text, maxLength, style);
            var i := StyleInstruction(style, maxLength);
            && |p| == |i| + |TextHeader| + |text| + |SummaryTrailer|
            && p[..|i|] == i
            && p[|i| + |TextHeader|..|p| - |SummaryTrailer|] == text
            && p[|p| - |SummaryTrailer|..] == SummaryTrailer
  {
    var p := BuildPrompt(text, maxLength, style);
    var i := StyleInstruction(style, maxLength);
    assert p == i + TextHeader + text + SummaryTrailer;
  }
}

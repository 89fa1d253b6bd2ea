/**
 * The extraction prompt: a fixed instruction text, then the meeting title, the date and
 * the transcript. The instruction wording is kept as a constant; only the layout matters.
 */
module Prompt {

  /**
   * The fixed instructions, cut after their first two sentences: the schema description and
   * the extraction rules that follow them in the real prompt are not reproduced. Nothing
   * proved here depends on this wording.
   */
  const Instructions: string :=
    "You are a professional meeting analyst. Analyse the provided meeting transcript and "
    + "return ONLY a valid JSON object.\n\n"

  const TitleLabel: string := "Meeting Title: "
  const DateLabel: string := "\nDate: "
  const TranscriptLabel: string := "\n\nTranscript:\n"

  /** `_build_extraction_prompt`. */
  function BuildExtractionPrompt(transcript: string, meetingName: string, meetingDate: string): string {
    Instructions + TitleLabel + meetingName + DateLabel + meetingDate + TranscriptLabel + transcript
  }

  /** Where the meeting name starts in every prompt. */
  const NameOffset: nat := |Instructions| + |TitleLabel|

  /**
   * The prompt starts with the instructions, carries the meeting name right after the title
   * label and the date right after the date label, and ends with the transcript verbatim.
   */
  lemma PromptLayout(transcript: string, meetingName: string, meetingDate: string)
    ensures var p := BuildExtractionPrompt(transcript, meetingName, meetingDate);
      && Instructions <= p
      && p[NameOffset..NameOffset + |meetingName|] == meetingName
      && p[NameOffset + |meetingName| + |DateLabel|..][..|meetingDate|] == meetingDate
      && |p| >= |transcript| && p[|p| - |transcript|..] == transcript
  {
    var instructions, title := Instructions, TitleLabel;
    assert NameOffset == |instructions| + |title|;
    ConcatLayout(instructions, title, meetingName, DateLabel, meetingDate, TranscriptLabel, transcript);
  }

  /** Where each part of a seven-part concatenation can be found again. */
  lemma ConcatLayout(a: string, b: string, c: string, d: string, e: string, f: string, g: string)
    ensures var p := a + b + c + d + e + f + g;
      && a <= p
      && p[|a| + |b|..|a| + |b| + |c|] == c
      && p[|a| + |b| + |c| + |d|..][..|e|] == e
      && |p| >= |g| && p[|p| - |g|..] == g
  {
    var p := a + b + c + d + e + f + g;
    assert p == (a + b) + (c + (d + (e + (f + g))));
    assert p[|p| - |g|..] == g;
  }

  /** Different transcripts (or names, or dates) give different prompts. */
  lemma PromptInjective(t1: string, n1: string, d1: string, t2: string, n2: string, d2: string)
    requires |n1| == |n2| && |d1| == |d2|
    requires BuildExtractionPrompt(t1, n1, d1) == BuildExtractionPrompt(t2, n2, d2)
    ensures t1 == t2 && n1 == n2 && d1 == d2
  {
    PromptLayout(t1, n1, d1);
    PromptLayout(t2, n2, d2);
  }
}

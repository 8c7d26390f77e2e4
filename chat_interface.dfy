/**
  The chat assistant's session logic: the canned replies used when the
  language model is unreachable, the context prompt sent when it is
  reachable, and the chat history kept in the session.
*/
module ChatInterface {
  import opened Wrappers
  import opened TextUtil

  // ---------------------------------------------------------------------------
  // Fallback replies
  // ---------------------------------------------------------------------------

  /** The reply categories, in the order the router tries them. */
  datatype Topic = ScoreHelp | KeywordHelp | ImproveHelp | SummaryHelp | GeneralHelp

  /** Position in the router's order; the general reply comes last. */
  function Priority(t: Topic): nat {
    match t
    case ScoreHelp => 0
    case KeywordHelp => 1
    case ImproveHelp => 2
    case SummaryHelp => 3
    case GeneralHelp => 4
  }

  /** The words that select a category; the general reply has none. */
  function Triggers(t: Topic): seq<string> {
    match t
    case ScoreHelp => ["score", "rating", "grade"]
    case KeywordHelp => ["keyword", "optimize", "ats"]
    case ImproveHelp => ["improve", "better", "enhance"]
    case SummaryHelp => ["summary", "profile", "objective"]
    case GeneralHelp => []
  }

  /** Every trigger word of every category. */
  function AllTriggers(): seq<string> {
    Triggers(ScoreHelp) + Triggers(KeywordHelp) + Triggers(ImproveHelp) + Triggers(SummaryHelp)
  }

  /** The category `_get_fallback_response` answers with: the first in the
      router's order one of whose words occurs in the lower-cased prompt, and
      the general reply exactly when no trigger word occurs at all. */
  function FallbackTopic(prompt: string): (t: Topic)
    ensures t != GeneralHelp ==> ContainsAny(Lower(prompt), Triggers(t))
    ensures forall u :: Priority(u) < Priority(t) ==> !ContainsAny(Lower(prompt), Triggers(u))
    ensures t == GeneralHelp <==> !ContainsAny(Lower(prompt), AllTriggers())
  {
    var text := Lower(prompt);
    if ContainsAny(text, Triggers(ScoreHelp)) then ScoreHelp
    else if ContainsAny(text, Triggers(KeywordHelp)) then KeywordHelp
    else if ContainsAny(text, Triggers(ImproveHelp)) then ImproveHelp
    else if ContainsAny(text, Triggers(SummaryHelp)) then SummaryHelp
    else GeneralHelp
  }

  /** The canned reply of each category. */
  function Reply(t: Topic): string {
    match t
    case ScoreHelp =>
      "Your ATS score indicates how well your CV is optimized for applicant tracking systems. Focus on including relevant keywords, clear formatting, and quantified achievements to improve it."
    case KeywordHelp =>
      "To optimize keywords: 1) Identify key terms from the job description, 2) Naturally incorporate them throughout your CV, 3) Focus on technical skills, action verbs, and industry terminology, 4) Avoid keyword stuffing."
    case ImproveHelp =>
      "Key CV improvements: 1) Add quantified achievements with numbers/percentages, 2) Use strong action verbs (achieved, managed, led), 3) Include relevant keywords naturally, 4) Ensure clear formatting with bullet points, 5) Tailor content to the specific job."
    case SummaryHelp =>
      "A strong professional summary should: 1) Be 2-3 sentences long, 2) Highlight your key qualifications, 3) Include years of experience, 4) Mention relevant skills/expertise, 5) Align with the target role."
    case GeneralHelp =>
      "Hi! I'm Dianelle, and I'd love to help you with your CV! Some general tips: use keywords from job descriptions, quantify achievements with numbers, use action verbs, keep formatting simple and ATS-friendly, and tailor your CV for each application. Feel free to ask me anything specific!"
  }

  /** `_get_fallback_response`: the reply of the routed category. */
  function FallbackResponse(prompt: string): string {
    Reply(FallbackTopic(prompt))
  }

  /** Upper case in the prompt never changes the reply. */
  lemma FallbackResponseIgnoresCase(prompt: string)
    ensures FallbackResponse(Lower(prompt)) == FallbackResponse(prompt)
  {
    FallbackIgnoresCase(prompt);
  }

  /** Matching ignores letter case: a prompt and its lower-cased form are routed alike. */
  lemma FallbackIgnoresCase(prompt: string)
    ensures FallbackTopic(Lower(prompt)) == FallbackTopic(prompt)
  {
    LowerIdempotent(prompt);
  }

  /** Matching is by substring: more text after a prompt can only move the
      reply earlier in the router's order, never later. */
  lemma FallbackAppend(prompt: string, more: string)
    ensures Priority(FallbackTopic(prompt + more)) <= Priority(FallbackTopic(prompt))
  {
    var t := FallbackTopic(prompt);
    LowerConcat(prompt, more);
    if t != GeneralHelp {
      ContainsAnyAppend(Lower(prompt), Lower(more), Triggers(t));
    }
  }

  // ---------------------------------------------------------------------------
  // Context prompt
  // ---------------------------------------------------------------------------

  const Persona := "You are Dianelle, a helpful and friendly AI career advisor and CV expert. You provide practical, specific advice with a personal touch. Always be encouraging and supportive while being professional."
  const Closing := "As Dianelle, provide a helpful, specific response with a friendly and encouraging tone. If relevant, reference their CV or job description. Keep it concise but actionable, and always be supportive of their career goals."
  const CvHeader := "USER'S CV CONTENT (first 1000 chars):"
  const JobHeader := "TARGET JOB DESCRIPTION (first 800 chars):"
  const CvLimit := 1000
  const JobLimit := 800

  /** The analysis results the prompt summarises. `atsScore` is the text of
      the stored score, if there is one. */
  datatype AnalysisResults = AnalysisResults(atsScore: Option<string>, matchedKeywords: seq<string>, missingKeywords: seq<string>)

  /** A text cut to `limit` characters, marked with "..." when it was longer. */
  function Excerpt(text: string, limit: nat): (r: string)
    ensures |text| <= limit ==> r == text
    ensures |text| > limit ==> |r| == limit + 3 && r[..limit] == text[..limit] && r[limit..] == "..."
  {
    if |text| > limit then text[..limit] + "..." else text
  }

  /** The question line. */
  function Question(userPrompt: string): string {
    "USER QUESTION: " + userPrompt
  }

  /** The lines summarising an analysis. */
  function AnalysisLines(a: AnalysisResults): (lines: seq<string>)
    ensures |lines| == 5
    ensures StartsWith(lines[1], "- ATS Score: ") && |lines[1]| >= 17
    ensures lines[1][13..|lines[1]| - 4] == a.atsScore.GetOr("N/A")
  {
    [ "CV ANALYSIS SUMMARY:",
      "- ATS Score: " + a.atsScore.GetOr("N/A") + "/100",
      "- Matched Keywords: " + NatToDecimal(|a.matchedKeywords|),
      "- Missing Keywords: " + NatToDecimal(|a.missingKeywords|),
      "" ]
  }

  /** The counts in the summary read back as the lengths of the two lists. */
  lemma AnalysisCountsReadBack(a: AnalysisResults)
    ensures var lines := AnalysisLines(a);
      && StartsWith(lines[2], "- Matched Keywords: ")
      && AllDigits(lines[2][20..]) && DecimalValue(lines[2][20..]) == |a.matchedKeywords|
      && StartsWith(lines[3], "- Missing Keywords: ")
      && AllDigits(lines[3][20..]) && DecimalValue(lines[3][20..]) == |a.missingKeywords|
  {
    var lines := AnalysisLines(a);
    assert lines[2][20..] == NatToDecimal(|a.matchedKeywords|);
    assert lines[3][20..] == NatToDecimal(|a.missingKeywords|);
    DecimalRoundTrip(|a.matchedKeywords|);
    DecimalRoundTrip(|a.missingKeywords|);
  }

  /** The three lines a non-empty text contributes under its header. */
  function Section(header: string, text: string, limit: nat): seq<string> {
    if text == "" then [] else [header, Excerpt(text, limit), ""]
  }

  /** The lines of the context prompt, before joining. `analysis` is `None`
      when there are no results or they are empty. */
  function ContextParts(userPrompt: string, cvText: string, jobDescription: string, analysis: Option<AnalysisResults>): (parts: seq<string>)
    ensures var c := if cvText == "" then 0 else 3;
      var j := if jobDescription == "" then 0 else 3;
      var a := if analysis.Some? then 5 else 0;
      && |parts| == 5 + c + j + a
      && parts[0] == Persona && parts[1] == ""
      && (cvText != "" ==> parts[2] == CvHeader && parts[3] == Excerpt(cvText, CvLimit))
      && (jobDescription != "" ==> parts[2 + c] == JobHeader && parts[3 + c] == Excerpt(jobDescription, JobLimit))
      && (analysis.Some? ==> parts[2 + c + j..7 + c + j] == AnalysisLines(analysis.value))
      && parts[|parts| - 3] == Question(userPrompt)
      && parts[|parts| - 1] == Closing
  {
    var analysisPart := if analysis.Some? then AnalysisLines(analysis.value) else [];
    [Persona, ""]
      + Section(CvHeader, cvText, CvLimit)
      + Section(JobHeader, jobDescription, JobLimit)
      + analysisPart
      + [Question(userPrompt), "", Closing]
  }

  /** The context prompt: the parts joined by newlines. */
  function ContextPrompt(userPrompt: string, cvText: string, jobDescription: string, analysis: Option<AnalysisResults>): string {
    Join(ContextParts(userPrompt, cvText, jobDescription, analysis), '\n')
  }

  /** `_build_context_prompt`: the parts list extended section by section, then joined. */
  method BuildContextPrompt(userPrompt: string, cvText: string, jobDescription: string, analysis: Option<AnalysisResults>) returns (prompt: string)
    ensures prompt == ContextPrompt(userPrompt, cvText, jobDescription, analysis)
    ensures StartsWith(prompt, Persona + "\n") && Contains(prompt, Question(userPrompt))
  {
    var parts := [Persona, ""];
    if cvText != "" {
      parts := parts + [CvHeader, Excerpt(cvText, CvLimit), ""];
    }
    if jobDescription != "" {
      parts := parts + [JobHeader, Excerpt(jobDescription, JobLimit), ""];
    }
    if analysis.Some? {
      parts := parts + AnalysisLines(analysis.value);
    }
    parts := parts + [Question(userPrompt), "", Closing];
    assert parts == ContextParts(userPrompt, cvText, jobDescription, analysis);
    prompt := Join(parts, '\n');
    PromptContents(userPrompt, cvText, jobDescription, analysis);
  }

  /** The prompt opens with the persona line and holds the question, the CV
      excerpt when there is a CV, and the job excerpt when there is a job. */
  lemma PromptContents(userPrompt: string, cvText: string, jobDescription: string, analysis: Option<AnalysisResults>)
    ensures var prompt := ContextPrompt(userPrompt, cvText, jobDescription, analysis);
      && StartsWith(prompt, Persona + "\n")
      && Contains(prompt, Question(userPrompt))
      && (cvText != "" ==> Contains(prompt, Excerpt(cvText, CvLimit)))
      && (jobDescription != "" ==> Contains(prompt, Excerpt(jobDescription, JobLimit)))
  {
    var parts := ContextParts(userPrompt, cvText, jobDescription, analysis);
    JoinStartsWith(parts, '\n');
    JoinHasPart(parts, '\n', |parts| - 3);
    if cvText != "" {
      JoinHasPart(parts, '\n', 3);
    }
    if jobDescription != "" {
      JoinHasPart(parts, '\n', if cvText == "" then 3 else 6);
    }
  }

  // ---------------------------------------------------------------------------
  // Chat history
  // ---------------------------------------------------------------------------

  datatype Role = User | Assistant

  /** One chat entry; the timestamp is supplied by the caller. */
  datatype ChatMessage = ChatMessage(role: Role, content: string, timestamp: string)

  /** The number of entries written by the user. */
  function UserCount(history: seq<ChatMessage>): (n: nat)
    ensures n <= |history|
    ensures n == 0 <==> forall i :: 0 <= i < |history| ==> history[i].role != User
  {
    if history == [] then 0
    else UserCount(history[..|history| - 1]) + (if history[|history| - 1].role == User then 1 else 0)
  }

  /** The session's `chat_history` key. */
  class ChatSession {
    /** `None` until the first message. */
    var chatHistory: Option<seq<ChatMessage>>

    constructor()
      ensures chatHistory == None
    {
      chatHistory := None;
    }

    /** The history, or the empty list a first message starts from. */
    function History(): seq<ChatMessage>
      reads this
    {
      chatHistory.GetOr([])
    }

    /** `_add_user_message`: exactly one user entry more, at the end, and the
        earlier entries unchanged. */
    method AddUserMessage(message: string, now: string)
      modifies this
      ensures chatHistory == Some(old(History()) + [ChatMessage(User, message, now)])
      ensures UserCount(History()) == UserCount(old(History())) + 1
    {
      var history := History() + [ChatMessage(User, message, now)];
      assert history[..|history| - 1] == History();
      chatHistory := Some(history);
    }

    /** `clear_chat_history`: an existing history is emptied; an absent one stays absent. */
    method ClearChatHistory()
      modifies this
      ensures old(chatHistory).Some? ==> chatHistory == Some([])
      ensures old(chatHistory).None? ==> chatHistory == None
      ensures UserCount(History()) == 0
    {
      if chatHistory.Some? {
        chatHistory := Some([]);
      }
    }
  }
}

/** The generation service: every call to the on-device Writer goes through here.
    A call creates a writer, writes one prompt, strips the reply of code fences and
    parses it as JSON, then checks the shape of what was parsed.

    The writer and the JSON parser are not part of this model: `create` is how
    `Writer.create` settles, `write` answers a prompt (in the feedback loop `reply(k, p)`
    answers the k-th prompt written to the one writer), and `parse` is `JSON.parse`.
 */
module InterviewService {
  import opened Outcomes
  import opened Text
  import opened Prompts

  /** A parsed JSON value.  Arrays are the string arrays the responses declare. */
  datatype Json =
    | JNull
    | JBool(b: bool)
    | JNumber(n: int)
    | JString(s: string)
    | JArray(items: seq<string>)
    | JObject(fields: seq<(string, Json)>)

  datatype InterviewAnswer = InterviewAnswer(question: string, answer: string)

  datatype AnswerFeedback = AnswerFeedback(question: string, answer: string, feedback: string)

  const UnexpectedVerificationShape := "Unexpected response shape from job description check."
  const UnexpectedFeedbackShape := "Unexpected feedback shape from Writer."
  const WriterUnavailable := "Writer API is unavailable in this environment."

  /** The value of the last member named `key`, which is the one `JSON.parse` keeps. */
  function LastMember(fields: seq<(string, Json)>, key: string): (r: Option<Json>)
    ensures r.None? <==> forall i :: 0 <= i < |fields| ==> fields[i].0 != key
    ensures r.Some? ==> exists i :: 0 <= i < |fields| && fields[i] == (key, r.value)
                                    && forall j :: i < j < |fields| ==> fields[j].0 != key
    decreases |fields|
  {
    if fields == [] then None
    else if fields[|fields| - 1].0 == key then Some(fields[|fields| - 1].1)
    else LastMember(fields[..|fields| - 1], key)
  }

  /** `parsed.key`: only objects have members; on anything else it is `undefined`. */
  function Member(j: Json, key: string): Option<Json> {
    if j.JObject? then LastMember(j.fields, key) else None
  }

  /** `parsed.key` when it is an array. */
  function ArrayMember(j: Json, key: string): (r: Option<seq<string>>)
    ensures r.Some? <==> Member(j, key).Some? && Member(j, key).value.JArray?
    ensures r.Some? ==> Member(j, key).value.items == r.value
  {
    match Member(j, key)
    case Some(JArray(items)) => Some(items)
    case _ => None
  }

  // ---------------------------------------------------------------- cleaning a reply

  /** `sanitizeWriterResponse`: drop the first "json", every code fence, and the
      surrounding whitespace. */
  function Sanitize(raw: string): string {
    Trim(RemoveAll(RemoveFirst(raw, "json"), Fence))
  }

  /** A cleaned reply holds no code fence and starts and ends with a non-space. */
  lemma SanitizeClean(raw: string)
    ensures !Contains(Sanitize(raw), Fence) && IsTrimmed(Sanitize(raw))
  {
    var s := RemoveAll(RemoveFirst(raw, "json"), Fence);
    var r := Trim(s);
    var k := |s| - |TrimStart(s)|;
    TrimSurrounds(s);
    assert OccursAt(s, r, k);
    forall j | OccursAt(r, Fence, j) ensures OccursAt(s, Fence, k + j) && 0 <= k + j <= |s| {
      OccursWithin(s, r, k, Fence, j);
    }
    FencesRemoved(RemoveFirst(raw, "json"));
  }

  /** A reply with neither "json" nor a code fence in it is only trimmed. */
  lemma SanitizePlainReply(raw: string)
    requires !Contains(raw, "json") && !Contains(raw, Fence)
    ensures Sanitize(raw) == Trim(raw)
  {
    RemoveAllAbsent(raw, Fence);
  }

  /** Fence removal passes over text without backticks unchanged. */
  lemma {:induction false} RemoveAllKeepsPlainPrefix(a: string, b: string)
    requires forall i :: 0 <= i < |a| ==> a[i] != '`'
    ensures RemoveAll(a + b, Fence) == a + RemoveAll(b, Fence)
    decreases |a|
  {
    if a != [] {
      var w := a + b;
      assert w[0] == a[0];
      assert !StartsWith(w, Fence);
      assert w[1..] == a[1..] + b;
      RemoveAllKeepsPlainPrefix(a[1..], b);
      assert [a[0]] + a[1..] == a;
    } else {
      assert a + b == b;
    }
  }

  /** In "```json" followed by `rest`, the first "json" is the tag right after the
      opening fence. */
  lemma RemoveJsonTag(rest: string)
    ensures RemoveFirst("```json" + rest, "json") == Fence + rest
  {
    var raw := "```json" + rest;
    assert raw == "```" + "json" + rest;
    OccursInConcat("```", "json", rest);
    ContainsAt(raw, "json", 3);
    forall j | 0 <= j < 3 ensures !OccursAt(raw, "json", j) {
      assert raw[j] == '`';
      assert raw[j..j + 4][0] == raw[j];
    }
    var at := IndexOf(raw, "json").value;
    assert at == 3;
    var r := RemoveFirst(raw, "json");
    assert r[..3] == raw[..3];
    assert r[3..] == raw[7..];
  }

  lemma RemoveFenceAlone()
    ensures RemoveAll(Fence, Fence) == []
  {
    assert Fence[3..] == [];
  }

  /** Fence removal takes a leading and a trailing fence off text without backticks. */
  lemma RemoveFencesAround(plain: string)
    requires forall i :: 0 <= i < |plain| ==> plain[i] != '`'
    ensures RemoveAll(Fence + plain + Fence, Fence) == plain
  {
    var tail := plain + Fence;
    var w := Fence + tail;
    assert w[..|Fence|] == Fence;
    assert w[|Fence|..] == tail;
    assert Fence + plain + Fence == w;
    RemoveAllKeepsPlainPrefix(plain, Fence);
    RemoveFenceAlone();
    assert plain + [] == plain;
  }

  /** The reply shape the service is written for: a fenced block tagged "json".  The
      block's body comes out trimmed, even when it mentions "json" itself. */
  lemma SanitizeUnwrapsFencedBlock(body: string)
    requires forall i :: 0 <= i < |body| ==> body[i] != '`'
    ensures Sanitize("```json\n" + body + "\n```") == Trim(body)
  {
    var plain := "\n" + body + "\n";
    assert "```json\n" + body + "\n```" == "```json" + (plain + Fence);
    RemoveJsonTag(plain + Fence);
    assert Fence + (plain + Fence) == Fence + plain + Fence;
    forall i | 0 <= i < |plain| ensures plain[i] != '`' {
      if 0 < i < |plain| - 1 {
        assert plain[i] == body[i - 1];
      }
    }
    RemoveFencesAround(plain);
    TrimIgnoresPadding("\n", body, "\n");
  }

  // ---------------------------------------------------------------- one Writer round trip

  /** Create a writer, write `prompt`, clean the reply and parse it; the first failure
      is what the call rejects with. */
  function Ask(create: Outcome, write: string -> Result<string>, prompt: string,
               parse: string -> Result<Json>): (r: Result<Json>)
    ensures create.Fail? ==> r == Err(create.thrown)
    ensures create.Pass? && write(prompt).Err? ==> r == Err(write(prompt).thrown)
    ensures create.Pass? && write(prompt).Ok? ==> r == parse(Sanitize(write(prompt).value))
  {
    match create
    case Fail(thrown) => Err(thrown)
    case Pass =>
      match write(prompt)
      case Err(thrown) => Err(thrown)
      case Ok(raw) => parse(Sanitize(raw))
  }

  /** `generateKeywords`: the parsed reply to the keyword prompt, unchecked. */
  function GenerateKeywords(jobDescription: string, create: Outcome, write: string -> Result<string>,
                            parse: string -> Result<Json>): Result<Json>
  {
    Ask(create, write, BuildKeywordPrompt(jobDescription), parse)
  }

  /** `generateInterviewQuestions`: the parsed reply to the question prompt, unchecked. */
  function GenerateInterviewQuestions(keywords: seq<string>, questionCount: int, difficulty: Difficulty,
                                      candidateName: string, create: Outcome,
                                      write: string -> Result<string>,
                                      parse: string -> Result<Json>): Result<Json>
  {
    Ask(create, write, BuildQuestionPrompt(keywords, questionCount, difficulty, candidateName), parse)
  }

  /** `verifyJobDescription`, reduced to the `result` flag its caller reads: the parsed
      reply to the relevance prompt must carry a boolean `result`. */
  function VerifyJobDescription(jobDescription: string, create: Outcome, write: string -> Result<string>,
                                parse: string -> Result<Json>): (r: Result<bool>)
    ensures var asked := Ask(create, write, AnalyseJD(jobDescription), parse);
      && (r.Ok? <==> asked.Ok? && Member(asked.value, "result").Some? && Member(asked.value, "result").value.JBool?)
      && (r.Ok? ==> Member(asked.value, "result") == Some(JBool(r.value)))
      && (asked.Err? ==> r == Err(asked.thrown))
      && (asked.Ok? && r.Err? ==> r.thrown == Error(UnexpectedVerificationShape))
  {
    match Ask(create, write, AnalyseJD(jobDescription), parse)
    case Err(thrown) => Err(thrown)
    case Ok(parsed) =>
      match Member(parsed, "result")
      case Some(JBool(flag)) => Ok(flag)
      case _ => Err(Error(UnexpectedVerificationShape))
  }

  /** `extractFeedback`: the trimmed `feedback` string of the parsed, cleaned reply. */
  function ExtractFeedback(raw: string, parse: string -> Result<Json>): (r: Result<string>)
    ensures var parsed := parse(Sanitize(raw));
      && (r.Ok? <==> parsed.Ok? && Member(parsed.value, "feedback").Some?
                      && Member(parsed.value, "feedback").value.JString?)
      && (r.Ok? ==> r.value == Trim(Member(parsed.value, "feedback").value.s) && IsTrimmed(r.value))
      && (parsed.Err? ==> r == Err(parsed.thrown))
      && (parsed.Ok? && r.Err? ==> r.thrown == Error(UnexpectedFeedbackShape))
  {
    match parse(Sanitize(raw))
    case Err(thrown) => Err(thrown)
    case Ok(parsed) =>
      match Member(parsed, "feedback")
      case Some(JString(text)) => Ok(Trim(text))
      case _ => Err(Error(UnexpectedFeedbackShape))
  }

  // ---------------------------------------------------------------- feedback on every answer

  /** The feedback text for the answer at position `k`, written as the k-th prompt. */
  function EntryFeedback(entry: InterviewAnswer, k: nat, reply: (nat, string) -> Result<string>,
                         parse: string -> Result<Json>): (r: Result<string>)
    ensures var written := reply(k, BuildAnswerAnalysisPrompt(entry.question, entry.answer));
      && (written.Err? ==> r == Err(written.thrown))
      && (r.Ok? <==> written.Ok? && ExtractFeedback(written.value, parse).Ok?)
      && (r.Ok? ==> IsTrimmed(r.value))
  {
    match reply(k, BuildAnswerAnalysisPrompt(entry.question, entry.answer))
    case Err(thrown) => Err(thrown)
    case Ok(raw) => ExtractFeedback(raw, parse)
  }

  /** How the feedback for each answer settles, answer by answer. */
  function EntryFeedbacks(entries: seq<InterviewAnswer>, reply: (nat, string) -> Result<string>,
                          parse: string -> Result<Json>): (r: seq<Result<string>>)
    ensures |r| == |entries|
    decreases |entries|
  {
    if entries == [] then []
    else EntryFeedbacks(entries[..|entries| - 1], reply, parse)
         + [EntryFeedback(entries[|entries| - 1], |entries| - 1, reply, parse)]
  }

  /** The feedback list for the first `n` answers, given how each answer's feedback
      settled, or the first failure among them. */
  function FeedbackUpTo(entries: seq<InterviewAnswer>, texts: seq<Result<string>>, n: nat)
    : Result<seq<AnswerFeedback>>
    requires n <= |entries| && n <= |texts|
    decreases n
  {
    if n == 0 then Ok([])
    else
      match FeedbackUpTo(entries, texts, n - 1)
      case Err(thrown) => Err(thrown)
      case Ok(done) =>
        match texts[n - 1]
        case Err(thrown) => Err(thrown)
        case Ok(text) => Ok(done + [AnswerFeedback(entries[n - 1].question, entries[n - 1].answer, text)])
  }

  /** What `analyzeAnswersWithWriter` settles with. */
  function AnswersAnalysis(entries: seq<InterviewAnswer>, writerPresent: bool, create: Outcome,
                           reply: (nat, string) -> Result<string>,
                           parse: string -> Result<Json>): Result<seq<AnswerFeedback>>
  {
    if |entries| == 0 then Ok([])
    else if !writerPresent then Err(Error(WriterUnavailable))
    else if create.Fail? then Err(create.thrown)
    else FeedbackUpTo(entries, EntryFeedbacks(entries, reply, parse), |entries|)
  }

  /** The k-th settled feedback is that of the k-th answer. */
  lemma {:induction false} EntryFeedbackAt(entries: seq<InterviewAnswer>, reply: (nat, string) -> Result<string>,
                        parse: string -> Result<Json>, k: nat)
    requires k < |entries|
    ensures EntryFeedbacks(entries, reply, parse)[k] == EntryFeedback(entries[k], k, reply, parse)
    decreases |entries|
  {
    var front := entries[..|entries| - 1];
    var before := EntryFeedbacks(front, reply, parse);
    var last := EntryFeedback(entries[|entries| - 1], |entries| - 1, reply, parse);
    assert EntryFeedbacks(entries, reply, parse) == before + [last];
    if k < |front| {
      EntryFeedbackAt(front, reply, parse, k);
      assert front[k] == entries[k];
      assert (before + [last])[k] == before[k];
    } else {
      assert (before + [last])[k] == last;
    }
  }

  /** The first answer without feedback decides the outcome. */
  lemma FeedbackStops(entries: seq<InterviewAnswer>, texts: seq<Result<string>>, k: nat)
    requires k < |entries| == |texts| && texts[k].Err? && FeedbackUpTo(entries, texts, k).Ok?
    ensures FeedbackUpTo(entries, texts, |entries|) == Err(texts[k].thrown)
  {
    FeedbackFailurePersists(entries, texts, k + 1, |entries|);
  }

  /** One more answer with feedback extends the list by that answer. */
  lemma FeedbackExtends(entries: seq<InterviewAnswer>, texts: seq<Result<string>>, k: nat,
                        feedback: seq<AnswerFeedback>)
    requires k < |entries| && k < |texts| && texts[k].Ok?
    requires FeedbackUpTo(entries, texts, k) == Ok(feedback)
    ensures FeedbackUpTo(entries, texts, k + 1)
            == Ok(feedback + [AnswerFeedback(entries[k].question, entries[k].answer, texts[k].value)])
  {
  }

  /** Once one answer has failed, later answers do not change the outcome. */
  lemma {:induction false} FeedbackFailurePersists(entries: seq<InterviewAnswer>, texts: seq<Result<string>>,
                                                   m: nat, n: nat)
    requires m <= n <= |entries| && n <= |texts|
    requires FeedbackUpTo(entries, texts, m).Err?
    ensures FeedbackUpTo(entries, texts, n) == FeedbackUpTo(entries, texts, m)
    decreases n - m
  {
    if m < n {
      FeedbackFailurePersists(entries, texts, m, n - 1);
    }
  }

  /** The feedback list has one entry per answer, in the answers' order, each carrying
      its answer's question and text unchanged with that answer's feedback. */
  lemma {:induction false} FeedbackKeepsOrder(entries: seq<InterviewAnswer>, texts: seq<Result<string>>, n: nat)
    requires n <= |entries| && n <= |texts|
    requires FeedbackUpTo(entries, texts, n).Ok?
    ensures var out := FeedbackUpTo(entries, texts, n).value;
      && |out| == n
      && forall i :: 0 <= i < n ==>
           texts[i].Ok? && out[i] == AnswerFeedback(entries[i].question, entries[i].answer, texts[i].value)
    decreases n
  {
    if n > 0 {
      FeedbackKeepsOrder(entries, texts, n - 1);
    }
  }

  /** All or nothing: the list is produced exactly when every answer got feedback, and
      otherwise the outcome is the failure of the first answer that did not. */
  lemma {:induction false} FeedbackAllOrNothing(entries: seq<InterviewAnswer>, texts: seq<Result<string>>, n: nat)
    requires n <= |entries| && n <= |texts|
    ensures FeedbackUpTo(entries, texts, n).Ok? <==> forall i :: 0 <= i < n ==> texts[i].Ok?
    ensures FeedbackUpTo(entries, texts, n).Err? ==>
      exists j :: 0 <= j < n && (forall i :: 0 <= i < j ==> texts[i].Ok?)
                  && texts[j].Err? && texts[j].thrown == FeedbackUpTo(entries, texts, n).thrown
    decreases n
  {
    if n > 0 {
      FeedbackAllOrNothing(entries, texts, n - 1);
    }
  }

  /** One pass of the feedback loop: build the prompt for the answer, write it as the
      k-th prompt and extract the feedback from the reply. */
  method FeedbackForEntry(entry: InterviewAnswer, k: nat, reply: (nat, string) -> Result<string>,
                          parse: string -> Result<Json>)
    returns (text: Result<string>)
    ensures text == EntryFeedback(entry, k, reply, parse)
    ensures var written := reply(k, BuildAnswerAnalysisPrompt(entry.question, entry.answer));
      && (written.Err? ==> text == Err(written.thrown))
      && (written.Ok? ==> text == ExtractFeedback(written.value, parse))
      && (text.Ok? ==> IsTrimmed(text.value))
  {
    var prompt := BuildAnswerAnalysisPrompt(entry.question, entry.answer);
    var result := reply(k, prompt);
    if result.Err? {
      return Err(result.thrown);
    }
    text := ExtractFeedback(result.value, parse);
  }

  /** The loop of `analyzeAnswersWithWriter`: every answer in order through the one
      writer, stopping at the first failure. */
  method CollectFeedback(entries: seq<InterviewAnswer>, reply: (nat, string) -> Result<string>,
                         parse: string -> Result<Json>)
    returns (r: Result<seq<AnswerFeedback>>)
    ensures r == FeedbackUpTo(entries, EntryFeedbacks(entries, reply, parse), |entries|)
  {
    ghost var texts := EntryFeedbacks(entries, reply, parse);
    var feedback: seq<AnswerFeedback> := [];
    var k: nat := 0;
    while k < |entries|
      invariant 0 <= k <= |entries|
      invariant FeedbackUpTo(entries, texts, k) == Ok(feedback)
    {
      var entry := entries[k];
      var text := FeedbackForEntry(entry, k, reply, parse);
      EntryFeedbackAt(entries, reply, parse, k);
      if text.Err? {
        FeedbackStops(entries, texts, k);
        return Err(text.thrown);
      }
      FeedbackExtends(entries, texts, k, feedback);
      feedback := feedback + [AnswerFeedback(entry.question, entry.answer, text.value)];
      k := k + 1;
    }
    return Ok(feedback);
  }

  /** `analyzeAnswersWithWriter`: nothing to do for no answers; otherwise one writer,
      one prompt per answer in order, and either every answer's feedback or the first
      failure. */
  method AnalyzeAnswersWithWriter(entries: seq<InterviewAnswer>, writerPresent: bool, create: Outcome,
                                  reply: (nat, string) -> Result<string>,
                                  parse: string -> Result<Json>)
    returns (r: Result<seq<AnswerFeedback>>)
    ensures r == AnswersAnalysis(entries, writerPresent, create, reply, parse)
  {
    if |entries| == 0 {
      return Ok([]);
    }
    if !writerPresent {
      return Err(Error(WriterUnavailable));
    }
    if create.Fail? {
      return Err(create.thrown);
    }
    r := CollectFeedback(entries, reply, parse);
  }

  /** No answers, no writer needed: the empty list comes back even without one; with
      answers but no Writer global the call rejects. */
  lemma AnalysisWithoutWriter(entries: seq<InterviewAnswer>, create: Outcome,
                              reply: (nat, string) -> Result<string>, parse: string -> Result<Json>)
    ensures AnswersAnalysis([], false, create, reply, parse) == Ok([])
    ensures entries != [] ==> AnswersAnalysis(entries, false, create, reply, parse) == Err(Error(WriterUnavailable))
  {
  }
}

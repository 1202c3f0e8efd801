/** The model gateway of services/gemini.ts: how each provider reply is turned into
    a typed result. The provider itself is an oracle: the body text of its reply
    (absent or present) and the grounding metadata reached through optional
    chaining. JSON parsing is a parameter `parse` that either yields a value or
    fails, as `JSON.parse` returns or throws. */
module Gateway {
  import opened Wrappers
  import opened Types

  const NoPostingsText := "No current postings found. Please refine your search keywords."
  const UntitledSourceTitle := "Job Posting / Recruiter Link"
  const AnalyzeFailedMessage := "Failed to analyze CV content."
  const CoverLetterFallback := "Unable to generate cover letter."
  const QuestionFallback := "Please describe your professional experience in France."
  const ContextPrefix := "Context: Applying for "

  /** The text `JSON.parse` is given when the reply has no body. */
  const EmptyJsonObject := "{}"

  // ---------------------------------------------------------------------------
  // Provider replies

  /** `chunk.web`: an optional title and an optional URI. */
  datatype Web = Web(title: Option<string>, uri: Option<string>)

  /** A grounding chunk; `web` may be missing. */
  datatype Chunk = Chunk(web: Option<Web>)

  datatype GroundingMetadata = GroundingMetadata(groundingChunks: Option<seq<Chunk>>)

  datatype Candidate = Candidate(groundingMetadata: Option<GroundingMetadata>)

  /** A provider reply: `response.text` and `response.candidates`. */
  datatype Response = Response(text: Option<string>, candidates: Option<seq<Candidate>>)

  /** JavaScript truthiness of an optional string: present and not empty. */
  predicate Truthy(s: Option<string>) {
    s.Some? && s.value != ""
  }

  /** The expression `s || fallback`. */
  function OrElse(s: Option<string>, fallback: string): (r: string)
    ensures Truthy(s) ==> r == s.value
    ensures !Truthy(s) ==> r == fallback
    ensures fallback != "" ==> r != ""
  {
    if Truthy(s) then s.value else fallback
  }

  // ---------------------------------------------------------------------------
  // matchJobs

  /** `response.candidates?.[0]?.groundingMetadata?.groundingChunks`. */
  function GroundingChunks(resp: Response): (r: Option<seq<Chunk>>)
    ensures resp.candidates.None? ==> r.None?
    ensures resp.candidates == Some([]) ==> r.None?
    ensures (resp.candidates.Some? && resp.candidates.value != []
             && resp.candidates.value[0].groundingMetadata.None?) ==> r.None?
    ensures r.Some? ==> (resp.candidates.Some? && resp.candidates.value != []
                         && resp.candidates.value[0].groundingMetadata == Some(GroundingMetadata(r)))
    ensures (resp.candidates.Some? && resp.candidates.value != []
             && resp.candidates.value[0].groundingMetadata.Some?) ==>
            r == resp.candidates.value[0].groundingMetadata.value.groundingChunks
  {
    match resp.candidates
    case None => None
    case Some(cs) =>
      if cs == [] then None
      else match cs[0].groundingMetadata
        case None => None
        case Some(md) => md.groundingChunks
  }

  /** `chunk.web?.uri` is truthy. */
  predicate HasUri(c: Chunk) {
    c.web.Some? && Truthy(c.web.value.uri)
  }

  /** The source pushed for a chunk that has a URI. */
  function SourceOf(c: Chunk): (g: GroundingSource)
    requires HasUri(c)
    ensures g.uri == c.web.value.uri.value && g.uri != ""
    ensures Truthy(c.web.value.title) ==> g.title == c.web.value.title.value
    ensures !Truthy(c.web.value.title) ==> g.title == UntitledSourceTitle
  {
    GroundingSource(OrElse(c.web.value.title, UntitledSourceTitle), c.web.value.uri.value)
  }

  /** The sources that the `forEach` over `chunks` has pushed once it has seen all
      of `cs`: no more sources than chunks, and every source has a non-empty URI. */
  function Sources(cs: seq<Chunk>): (r: seq<GroundingSource>)
    ensures |r| <= |cs|
    ensures forall g :: g in r ==> g.uri != ""
  {
    if cs == [] then []
    else
      var last := cs[|cs| - 1];
      Sources(cs[..|cs| - 1]) + (if HasUri(last) then [SourceOf(last)] else [])
  }

  /** The `forEach` loop of matchJobs: one source per chunk with a URI, pushed in chunk order. */
  method ExtractSources(chunks: Option<seq<Chunk>>) returns (sources: seq<GroundingSource>)
    ensures chunks.None? ==> sources == []
    ensures chunks.Some? ==> sources == Sources(chunks.value)
  {
    sources := [];
    if chunks.Some? {
      var cs := chunks.value;
      var i := 0;
      while i < |cs|
        invariant 0 <= i <= |cs|
        invariant sources == Sources(cs[..i])
      {
        assert cs[..i + 1][..i] == cs[..i];
        if HasUri(cs[i]) {
          sources := sources + [SourceOf(cs[i])];
        }
        i := i + 1;
      }
      assert cs[..|cs|] == cs;
    }
  }

  /** matchJobs once the provider has replied. */
  method MatchJobs(resp: Response) returns (r: SearchResult)
    ensures Truthy(resp.text) ==> r.text == resp.text.value
    ensures !Truthy(resp.text) ==> r.text == NoPostingsText
    ensures GroundingChunks(resp).None? ==> r.sources == []
    ensures GroundingChunks(resp).Some? ==> r.sources == Sources(GroundingChunks(resp).value)
  {
    var text := OrElse(resp.text, NoPostingsText);
    var sources := ExtractSources(GroundingChunks(resp));
    r := SearchResult(text, sources);
  }

  /** Sources of a concatenation: the loop's output for `a + b` is its output for `a`
      followed by its output for `b`, so the order of the chunks is kept. */
  lemma {:induction false} SourcesAppend(a: seq<Chunk>, b: seq<Chunk>)
    ensures Sources(a + b) == Sources(a) + Sources(b)
    decreases |b|
  {
    if b == [] {
      assert a + b == a;
    } else {
      var b' := b[..|b| - 1];
      assert (a + b)[..|a + b| - 1] == a + b';
      assert (a + b)[|a + b| - 1] == b[|b| - 1];
      SourcesAppend(a, b');
    }
  }

  /** A single chunk contributes its source exactly when it has a URI. */
  lemma SourcesOfOne(c: Chunk)
    ensures Sources([c]) == if HasUri(c) then [SourceOf(c)] else []
  {
    assert [c][..0] == [];
  }

  /** Nothing else: every source comes from a chunk that has a URI. */
  lemma {:induction false} SourcesSound(cs: seq<Chunk>, g: GroundingSource)
    requires g in Sources(cs)
    ensures exists i :: 0 <= i < |cs| && HasUri(cs[i]) && g == SourceOf(cs[i])
    decreases |cs|
  {
    var n := |cs| - 1;
    if g in Sources(cs[..n]) {
      SourcesSound(cs[..n], g);
      var i :| 0 <= i < n && HasUri(cs[..n][i]) && g == SourceOf(cs[..n][i]);
      assert cs[i] == cs[..n][i];
    } else {
      assert HasUri(cs[n]) && g == SourceOf(cs[n]);
    }
  }

  /** Nothing missed: every chunk with a URI yields its source. */
  lemma {:induction false} SourcesComplete(cs: seq<Chunk>, i: nat)
    requires i < |cs| && HasUri(cs[i])
    ensures SourceOf(cs[i]) in Sources(cs)
  {
    SourcesAppend(cs[..i + 1], cs[i + 1..]);
    assert cs[..i + 1] + cs[i + 1..] == cs;
    SourcesAppend(cs[..i], [cs[i]]);
    assert cs[..i] + [cs[i]] == cs[..i + 1];
    SourcesOfOne(cs[i]);
  }

  // ---------------------------------------------------------------------------
  // analyzeCV

  /** The part of the analyzeCV prompt that names the job: present exactly when
      the optional job description is truthy. */
  function ContextClause(jobDescription: Option<string>): (r: string)
    ensures Truthy(jobDescription) <==> r != ""
    ensures Truthy(jobDescription) ==> (|r| > |ContextPrefix| && r[..|ContextPrefix|] == ContextPrefix
                                        && r[|ContextPrefix|..] == jobDescription.value)
  {
    if Truthy(jobDescription) then ContextPrefix + jobDescription.value else ""
  }

  /** analyzeCV once the provider has replied: the body, or "{}" when there is none,
      is parsed; a parse failure becomes the fixed error. */
  function AnalyzeCV(body: Option<string>, parse: string -> Option<CVAnalysis>): (r: Result<CVAnalysis, string>)
    ensures r.Failure? <==> parse(OrElse(body, EmptyJsonObject)).None?
    ensures r.Failure? ==> r.error == AnalyzeFailedMessage
    ensures r.Success? ==> parse(OrElse(body, EmptyJsonObject)) == Some(r.value)
  {
    match parse(OrElse(body, EmptyJsonObject))
    case Some(a) => Success(a)
    case None => Failure(AnalyzeFailedMessage)
  }

  /** An empty or missing body is parsed as "{}"; with a parser that accepts "{}",
      as `JSON.parse` does, analyzeCV does not fail on it. */
  lemma AnalyzeEmptyBody(body: Option<string>, parse: string -> Option<CVAnalysis>)
    requires !Truthy(body)
    requires parse(EmptyJsonObject).Some?
    ensures AnalyzeCV(body, parse) == Success(parse(EmptyJsonObject).value)
  {
  }

  // ---------------------------------------------------------------------------
  // generateCoverLetter, generateInterviewQuestion, getInterviewFeedback

  /** generateCoverLetter once the provider has replied. */
  function CoverLetter(body: Option<string>): (r: string)
    ensures Truthy(body) ==> r == body.value
    ensures !Truthy(body) ==> r == CoverLetterFallback
    ensures r != ""
  {
    OrElse(body, CoverLetterFallback)
  }

  /** generateInterviewQuestion once the provider has replied. */
  function InterviewQuestion(body: Option<string>): (r: string)
    ensures Truthy(body) ==> r == body.value
    ensures !Truthy(body) ==> r == QuestionFallback
    ensures r != ""
  {
    OrElse(body, QuestionFallback)
  }

  /** getInterviewFeedback once the provider has replied: never an error; a payload
      that does not parse gives no feedback. */
  function InterviewFeedback(body: Option<string>, parse: string -> Option<Feedback>): (r: Option<Feedback>)
    ensures r.None? <==> parse(OrElse(body, EmptyJsonObject)).None?
    ensures r.Some? ==> parse(OrElse(body, EmptyJsonObject)) == Some(r.value)
    ensures !Truthy(body) ==> r == parse(EmptyJsonObject)
  {
    parse(OrElse(body, EmptyJsonObject))
  }
}

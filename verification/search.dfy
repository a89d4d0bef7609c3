/** The `Search` tool: the imperative extraction step of `call`, the routing
    of its outcome to the streaming or summarizing collaborators, and the
    availability check. The HTTP request is a parameter (`Fetch`). */
module SearchTool {
  import opened Wrappers
  import opened Text
  import opened Payload
  import opened Extraction

  /** What the HTTP request to the provider gave back. */
  datatype Fetch = Fetched(payload: Payload) | TransportFailed

  /** What `call` hands back to its caller: a stream of one final chunk, a
      request to the summarizer, or a raised error. */
  datatype Response =
    | Streamed(text: string, final: bool)
    | Summarized(goal: string, task: string, snippets: seq<string>)
    | Raised(failure: Failure)

  /** The tool is available exactly when an API key is configured, even an empty one. */
  function Available(apiKey: Option<string>): (r: bool)
    ensures apiKey == None ==> !r
    ensures apiKey.Some? ==> r  // an empty key included
  {
    apiKey.Some?
  }

  /** The extraction step of `call`: builds the snippet and link lists in
      place and returns as soon as the outcome is known. */
  method Extract(p: Payload) returns (o: Outcome)
    ensures o == Expected(p)
  {
    var snippets: seq<string> := [];
    var links: seq<string> := [];

    if BoxTruthy(p.answerBox) {
      var box := p.answerBox.value;
      var answerValues: seq<string> := [];
      if TextTruthy(box.answer) {
        answerValues := answerValues + [box.answer.value];
      } else if TextTruthy(box.snippet) {
        answerValues := answerValues + [ReplaceNewlines(box.snippet.value)];
      } else if ListTruthy(box.snippetHighlighted) {
        answerValues := answerValues + [Join(", ", box.snippetHighlighted.value)];
      }
      assert answerValues == if BoxAnswer(box).Some? then [BoxAnswer(box).value] else [];
      if answerValues != [] {
        JoinOne("\n", answerValues[0]);
        return Direct(Join("\n", answerValues));
      }
    }

    if GraphTruthy(p.knowledgeGraph) {
      var kg := p.knowledgeGraph.value;
      var title := Show(kg.title);
      if TextTruthy(kg.entityType) {
        snippets := snippets + [title + ": " + kg.entityType.value + "."];
      }
      ghost var typed := snippets;
      if TextTruthy(kg.description) {
        snippets := snippets + [kg.description.value];
      }
      assert snippets == typed + (if TextTruthy(kg.description) then [kg.description.value] else []);
      snippets := snippets + AttributeLines(title + " ", Items(kg.attributes));
    }
    assert snippets == GraphLines(p.knowledgeGraph);

    if p.organic.None? {
      return Failed(OrganicMissing);
    }
    var top := Take(p.organic.value, K);
    for i := 0 to |top|
      invariant snippets == GraphLines(p.knowledgeGraph) + OrganicLines(top[..i])
      invariant links == Take(LinksOf(top[..i]), MaxLinks)
    {
      var result := top[i];
      GatherSnippetsStep(GraphLines(p.knowledgeGraph), top, i, snippets);
      GatherLinksStep(top, i, links);
      if result.snippet.Some? {
        snippets := snippets + [result.snippet.value];
      }
      if result.link.Some? && |links| < MaxLinks {
        links := links + [result.link.value];
      }
      snippets := snippets + AttributeLines("", Items(result.attributes));
    }
    assert top[..|top|] == top;
    assert snippets == Snippets(p) && links == Links(p);

    if snippets == [] {
      return NoResults;
    }
    return Summarize(snippets, links);
  }

  /** Where each outcome goes: a direct answer and the sentinel are streamed
      as one final chunk, the snippets (without the links) go to the
      summarizer, a failure is raised. */
  function Route(o: Outcome, goal: string, task: string): (r: Response)
    ensures r.Streamed? ==> r.final
    ensures r.Summarized? ==> o.Summarize? && r.snippets == o.snippets && r.goal == goal && r.task == task
    ensures o.Direct? ==> r == Streamed(o.answer, true)
    ensures o.NoResults? ==> r == Streamed(NoResultText, true)
    ensures o.Summarize? ==> r.Summarized?
    ensures o.Failed? ==> r == Raised(o.failure)
  {
    match o
    case Direct(a) => Streamed(a, true)
    case NoResults => Streamed(NoResultText, true)
    case Summarize(s, _) => Summarized(goal, task, s)
    case Failed(f) => Raised(f)
  }

  /** `call`: a transport failure is raised before any extraction; otherwise
      the payload is extracted and the outcome routed. */
  method Call(goal: string, task: string, fetched: Fetch) returns (r: Response)
    ensures fetched.TransportFailed? ==> r == Raised(ProviderError)
    ensures fetched.Fetched? ==> r == Route(Expected(fetched.payload), goal, task)
    ensures r.Streamed? ==> r.final
  {
    if fetched.TransportFailed? {
      return Raised(ProviderError);
    }
    var o := Extract(fetched.payload);
    r := Route(o, goal, task);
  }

  /** The summarizer is never asked to summarize an empty list, and it
      receives exactly the extracted snippets in their order. */
  lemma SummarizerGetsSnippets(p: Payload, goal: string, task: string)
    requires Route(Expected(p), goal, task).Summarized?
    ensures p.organic.Some?
    ensures Route(Expected(p), goal, task) == Summarized(goal, task, Snippets(p))
    ensures Snippets(p) != []
  {
  }

  /** Without a direct answer and with the `organic` key present, the
      sentinel is streamed as final exactly when no snippet was gathered. */
  lemma SentinelWhenNoSnippets(p: Payload, goal: string, task: string)
    requires DirectAnswer(p.answerBox).None? && p.organic.Some?
    ensures Route(Expected(p), goal, task) == Streamed(NoResultText, true) <==> Snippets(p) == []
  {
  }

  /** The links gathered never reach the caller. */
  lemma LinksNeverEmitted(snippets: seq<string>, links1: seq<string>, links2: seq<string>, goal: string, task: string)
    ensures Route(Summarize(snippets, links1), goal, task) == Route(Summarize(snippets, links2), goal, task)
  {
  }

  /** A direct answer from the answer box is streamed verbatim as one final chunk. */
  lemma DirectAnswerStreamed(p: Payload, a: string, goal: string, task: string)
    requires DirectAnswer(p.answerBox) == Some(a)
    ensures Route(Expected(p), goal, task) == Streamed(a, true)
  {
  }

  /** Without a direct answer, a payload missing the `organic` key makes the
      call raise. */
  lemma MissingOrganicRaised(p: Payload, goal: string, task: string)
    requires DirectAnswer(p.answerBox).None? && p.organic.None?
    ensures Route(Expected(p), goal, task) == Raised(OrganicMissing)
  {
  }
}

/** What one search call makes of the provider's payload: a direct answer from
    the answer box, or the snippets and links gathered from the knowledge graph
    and the first organic results, or the no-results sentinel. `Expected` is the
    reference definition; the imperative `SearchTool.Extract` is proved equal to it. */
module Extraction {
  import opened Wrappers
  import opened Text
  import opened Payload

  /** Number of organic results looked at. */
  const K: nat := 6
  /** Number of links kept. */
  const MaxLinks: nat := 3
  /** Text streamed when nothing could be extracted. */
  const NoResultText: string := "No good Google Search Result was found"

  /** Why a call produced no text. */
  datatype Failure =
    | ProviderError   // the HTTP exchange failed or returned a non-success status
    | OrganicMissing  // the payload has no `organic` key (Python raises KeyError)

  /** The decision the extraction step reaches. */
  datatype Outcome =
    | Direct(answer: string)
    | NoResults
    | Summarize(snippets: seq<string>, links: seq<string>)
    | Failed(failure: Failure)

  /** The first `n` elements of `xs` (all of them when there are fewer): `xs[:n]`. */
  function Take<T>(xs: seq<T>, n: nat): (r: seq<T>)
    ensures |r| == if |xs| < n then |xs| else n
    ensures r == xs[..|r|]
  {
    if |xs| <= n then xs else xs[..n]
  }

  /** The answer box's own priority chain: `answer`, else `snippet` with line
      feeds replaced, else `snippetHighlighted` joined with ", ". */
  function BoxAnswer(box: AnswerBox): Option<string>
  {
    if TextTruthy(box.answer) then Some(box.answer.value)
    else if TextTruthy(box.snippet) then Some(ReplaceNewlines(box.snippet.value))
    else if ListTruthy(box.snippetHighlighted) then Some(Join(", ", box.snippetHighlighted.value))
    else None
  }

  /** The direct answer, if the answer box is present, non-empty and yields one. */
  function DirectAnswer(b: Option<AnswerBox>): Option<string>
  {
    if BoxTruthy(b) then BoxAnswer(b.value) else None
  }

  /** One line `"{prefix}{attribute}: {value}."` per attribute, in order. */
  function AttributeLines(prefix: string, attrs: Attributes): (r: seq<string>)
    ensures |r| == |attrs|
  {
    if attrs == [] then []
    else [AttributeLine(prefix, attrs[0])] + AttributeLines(prefix, attrs[1..])
  }

  /** `f"{prefix}{attribute}: {value}."` */
  function AttributeLine(prefix: string, attr: (string, string)): string
  {
    prefix + attr.0 + ": " + attr.1 + "."
  }

  /** The attribute lines are one per attribute, in the attributes' order. */
  lemma {:induction false} AttributeLinesAt(prefix: string, attrs: Attributes, i: nat)
    requires i < |attrs|
    ensures AttributeLines(prefix, attrs)[i] == AttributeLine(prefix, attrs[i])
  {
    if i > 0 {
      AttributeLinesAt(prefix, attrs[1..], i - 1);
    }
  }

  /** The lines the knowledge graph contributes: the type line, the
      description, then one line per attribute, each prefixed by the title. */
  function GraphLines(g: Option<KnowledgeGraph>): seq<string>
  {
    if !GraphTruthy(g) then []
    else
      var kg := g.value;
      var title := Show(kg.title);
      (if TextTruthy(kg.entityType) then [title + ": " + kg.entityType.value + "."] else []) +
      (if TextTruthy(kg.description) then [kg.description.value] else []) +
      AttributeLines(title + " ", Items(kg.attributes))
  }

  /** The lines one organic result contributes: its snippet if the key is
      there (even when empty), then one line per attribute. */
  function EntryLines(e: Entry): seq<string>
  {
    (if e.snippet.Some? then [e.snippet.value] else []) + AttributeLines("", Items(e.attributes))
  }

  /** The lines of a run of organic results, result by result. */
  function OrganicLines(es: seq<Entry>): seq<string>
  {
    if es == [] then [] else OrganicLines(es[..|es| - 1]) + EntryLines(es[|es| - 1])
  }

  /** Every `link` of a run of organic results, in order. */
  function LinksOf(es: seq<Entry>): seq<string>
  {
    if es == [] then []
    else LinksOf(es[..|es| - 1]) + (if es[|es| - 1].link.Some? then [es[|es| - 1].link.value] else [])
  }

  /** The snippets gathered when the answer box gives no answer. */
  function Snippets(p: Payload): seq<string>
    requires p.organic.Some?
  {
    GraphLines(p.knowledgeGraph) + OrganicLines(Take(p.organic.value, K))
  }

  /** The links gathered alongside: the first MaxLinks links of the first K results. */
  function Links(p: Payload): seq<string>
    requires p.organic.Some?
  {
    Take(LinksOf(Take(p.organic.value, K)), MaxLinks)
  }

  /** One more result adds its lines after those of the results before it. */
  lemma {:induction false} OrganicLinesStep(es: seq<Entry>, i: nat)
    requires i < |es|
    ensures OrganicLines(es[..i + 1]) == OrganicLines(es[..i]) + EntryLines(es[i])
    ensures LinksOf(es[..i + 1]) == LinksOf(es[..i]) + (if es[i].link.Some? then [es[i].link.value] else [])
  {
    assert es[..i + 1][..i] == es[..i];
  }

  /** Taking a prefix of a list that grows by at most one element: the new
      element is kept only while the prefix is shorter than `n`. */
  lemma {:induction false} TakeGrow<T>(xs: seq<T>, extra: seq<T>, n: nat)
    requires |extra| <= 1
    ensures Take(xs + extra, n) == if |Take(xs, n)| < n then Take(xs, n) + extra else Take(xs, n)
  {
    if |Take(xs, n)| >= n {
      assert Take(xs + extra, n) == (xs + extra)[..n] == xs[..n];
    }
  }

  /** One round of gathering from the result at index `i`: its snippet if
      the key is there, then its attribute lines. */
  lemma {:induction false} GatherSnippetsStep(g: seq<string>, top: seq<Entry>, i: nat, snippets: seq<string>)
    requires i < |top|
    requires snippets == g + OrganicLines(top[..i])
    ensures var e := top[i];
      (if e.snippet.Some? then snippets + [e.snippet.value] else snippets) + AttributeLines("", Items(e.attributes))
        == g + OrganicLines(top[..i + 1])
  {
    var e := top[i];
    var attrs := AttributeLines("", Items(e.attributes));
    OrganicLinesStep(top, i);
    if e.snippet.Some? {
      AppendAssoc(snippets, [e.snippet.value], attrs);
    } else {
      assert EntryLines(e) == attrs;
    }
    AppendAssoc(g, OrganicLines(top[..i]), EntryLines(e));
  }

  /** One round of gathering from the result at index `i`: its link is kept
      while fewer than MaxLinks are. */
  lemma {:induction false} GatherLinksStep(top: seq<Entry>, i: nat, links: seq<string>)
    requires i < |top|
    requires links == Take(LinksOf(top[..i]), MaxLinks)
    ensures var e := top[i];
      (if e.link.Some? && |links| < MaxLinks then links + [e.link.value] else links)
        == Take(LinksOf(top[..i + 1]), MaxLinks)
  {
    var e := top[i];
    OrganicLinesStep(top, i);
    TakeGrow(LinksOf(top[..i]), if e.link.Some? then [e.link.value] else [], MaxLinks);
  }

  /** What the search call decides for a payload. */
  function Expected(p: Payload): Outcome
  {
    match DirectAnswer(p.answerBox)
    case Some(a) => Direct(a)
    case None =>
      if p.organic.None? then Failed(OrganicMissing)
      else if Snippets(p) == [] then NoResults
      else Summarize(Snippets(p), Links(p))
  }

  // ---------------------------------------------------------------------------
  // The answer box

  /** A non-empty `answer` is returned verbatim. */
  lemma AnswerFirst(p: Payload)
    requires p.answerBox.Some? && TextTruthy(p.answerBox.value.answer)
    ensures Expected(p) == Direct(p.answerBox.value.answer.value)
  {
  }

  /** Without an answer, a non-empty `snippet` is returned as one line: same
      length, line feeds turned into spaces, nothing else changed. */
  lemma SnippetSecond(p: Payload)
    requires p.answerBox.Some? && !TextTruthy(p.answerBox.value.answer)
    requires TextTruthy(p.answerBox.value.snippet)
    ensures Expected(p).Direct?
    ensures var s, r := p.answerBox.value.snippet.value, Expected(p).answer;
      r == ReplaceNewlines(s) && |r| == |s| && '\n' !in r &&
      (forall i :: 0 <= i < |s| && s[i] == '\n' ==> r[i] == ' ') &&
      (forall i :: 0 <= i < |s| && s[i] != '\n' ==> r[i] == s[i])
  {
    NoNewlineAfterReplace(p.answerBox.value.snippet.value);
  }

  /** Without an answer or a snippet, a non-empty `snippetHighlighted` list is
      returned joined with ", ". */
  lemma HighlightedThird(p: Payload)
    requires p.answerBox.Some? && !TextTruthy(p.answerBox.value.answer)
    requires !TextTruthy(p.answerBox.value.snippet) && ListTruthy(p.answerBox.value.snippetHighlighted)
    ensures Expected(p) == Direct(Join(", ", p.answerBox.value.snippetHighlighted.value))
  {
  }

  /** Once the answer box yields an answer, the knowledge graph and the
      organic results (even a missing `organic` key) make no difference. */
  lemma DirectIgnoresRest(p: Payload, q: Payload)
    requires p.answerBox == q.answerBox && DirectAnswer(p.answerBox).Some?
    ensures Expected(p) == Expected(q) == Direct(DirectAnswer(p.answerBox).value)
  {
  }

  /** The answer box yields nothing exactly when it is missing or empty, or
      when its three fields are all empty or missing. */
  lemma NoDirectAnswerIff(b: Option<AnswerBox>)
    ensures DirectAnswer(b).None? <==>
      (!BoxTruthy(b) ||
       (!TextTruthy(b.value.answer) && !TextTruthy(b.value.snippet) && !ListTruthy(b.value.snippetHighlighted)))
  {
  }

  /** An answer box that yields nothing is as good as none at all: extraction
      goes on with the knowledge graph and the organic results. */
  lemma SilentBoxFallsThrough(p: Payload)
    requires DirectAnswer(p.answerBox).None?
    ensures Expected(p) == Expected(p.(answerBox := None))
  {
  }

  // ---------------------------------------------------------------------------
  // The organic results

  /** Results from index K on never matter: two payloads that agree on
      everything but those results have the same outcome. */
  lemma OnlyFirstSixOrganic(p: Payload, q: Payload)
    requires p.answerBox == q.answerBox && p.knowledgeGraph == q.knowledgeGraph
    requires p.organic.Some? && q.organic.Some?
    requires |p.organic.value| >= K && |q.organic.value| >= K
    requires p.organic.value[..K] == q.organic.value[..K]
    ensures Expected(p) == Expected(q)
  {
  }

  lemma AppendAssoc<T>(a: seq<T>, b: seq<T>, c: seq<T>)
    ensures a + b + c == a + (b + c)
  {
  }

  /** The lines of two runs of results are the lines of the first, then those of the second. */
  lemma {:induction false} OrganicLinesAppend(a: seq<Entry>, b: seq<Entry>)
    ensures OrganicLines(a + b) == OrganicLines(a) + OrganicLines(b)
    decreases |b|
  {
    if b == [] {
      assert a + b == a;
    } else {
      var b', last := b[..|b| - 1], b[|b| - 1];
      assert (a + b)[..|a + b| - 1] == a + b';
      assert (a + b)[|a + b| - 1] == last;
      OrganicLinesAppend(a, b');
      calc {
        OrganicLines(a + b);
        OrganicLines(a + b') + EntryLines(last);
        OrganicLines(a) + OrganicLines(b') + EntryLines(last);
        { AppendAssoc(OrganicLines(a), OrganicLines(b'), EntryLines(last)); }
        OrganicLines(a) + (OrganicLines(b') + EntryLines(last));
        OrganicLines(a) + OrganicLines(b);
      }
    }
  }

  /** The links of two runs of results are the links of the first, then those of the second. */
  lemma {:induction false} LinksOfAppend(a: seq<Entry>, b: seq<Entry>)
    ensures LinksOf(a + b) == LinksOf(a) + LinksOf(b)
    decreases |b|
  {
    if b == [] {
      assert a + b == a;
    } else {
      var b', last := b[..|b| - 1], b[|b| - 1];
      var tail := if last.link.Some? then [last.link.value] else [];
      assert (a + b)[..|a + b| - 1] == a + b';
      assert (a + b)[|a + b| - 1] == last;
      LinksOfAppend(a, b');
      calc {
        LinksOf(a + b);
        LinksOf(a + b') + tail;
        LinksOf(a) + LinksOf(b') + tail;
        { AppendAssoc(LinksOf(a), LinksOf(b'), tail); }
        LinksOf(a) + (LinksOf(b') + tail);
        LinksOf(a) + LinksOf(b);
      }
    }
  }

  /** A text is among the links exactly when some result carries it as its `link`. */
  lemma {:induction false} LinksOfMember(es: seq<Entry>, l: string)
    ensures l in LinksOf(es) <==> exists i :: 0 <= i < |es| && es[i].link == Some(l)
  {
    if es != [] {
      var init := es[..|es| - 1];
      LinksOfMember(init, l);
      if l in LinksOf(init) {
        var i :| 0 <= i < |init| && init[i].link == Some(l);
        assert es[i] == init[i];
      }
      if exists i :: 0 <= i < |es| && es[i].link == Some(l) {
        var i :| 0 <= i < |es| && es[i].link == Some(l);
        if i < |init| {
          assert init[i] == es[i];
        }
      }
    }
  }

  /** When every result has a link, the links are those of the results, one for one. */
  lemma {:induction false} LinksOfAllLinked(es: seq<Entry>)
    requires forall i :: 0 <= i < |es| ==> es[i].link.Some?
    ensures |LinksOf(es)| == |es|
    ensures forall i :: 0 <= i < |es| ==> LinksOf(es)[i] == es[i].link.value
  {
    if es != [] {
      var init := es[..|es| - 1];
      assert forall i :: 0 <= i < |init| ==> init[i] == es[i];
      LinksOfAllLinked(init);
    }
  }

  /** At most MaxLinks links are kept; they are the first links of the first K
      results in their order, and there are exactly MaxLinks of them when
      those results carry that many. */
  lemma LinksBound(p: Payload)
    requires Expected(p).Summarize?
    ensures var all := LinksOf(Take(p.organic.value, K));
      var links := Expected(p).links;
      |links| <= MaxLinks &&
      links == all[..|links|] &&
      (|all| >= MaxLinks ==> |links| == MaxLinks) &&
      (|all| < MaxLinks ==> links == all)
  {
  }

  /** A result contributes lines when it has a `snippet` key or attributes. */
  predicate Contributes(e: Entry)
  {
    e.snippet.Some? || Items(e.attributes) != []
  }

  /** A run of results yields no lines exactly when none of them contributes. */
  lemma {:induction false} OrganicLinesEmpty(es: seq<Entry>)
    ensures OrganicLines(es) == [] <==> forall i :: 0 <= i < |es| ==> !Contributes(es[i])
  {
    if es != [] {
      var init := es[..|es| - 1];
      OrganicLinesEmpty(init);
      assert forall i :: 0 <= i < |init| ==> init[i] == es[i];
      assert |AttributeLines("", Items(es[|es| - 1].attributes))| == |Items(es[|es| - 1].attributes)|;
    }
  }

  /** The outcome is the sentinel exactly when there is no direct answer, the
      `organic` key is there, the knowledge graph gives nothing, and none of
      the first K results has a `snippet` key or an attribute. */
  lemma NoResultsIff(p: Payload)
    ensures Expected(p) == NoResults <==>
      (DirectAnswer(p.answerBox).None? && p.organic.Some? &&
       GraphLines(p.knowledgeGraph) == [] &&
       forall i :: 0 <= i < |Take(p.organic.value, K)| ==> !Contributes(Take(p.organic.value, K)[i]))
  {
    if p.organic.Some? {
      OrganicLinesEmpty(Take(p.organic.value, K));
    }
  }

  /** The knowledge graph gives nothing exactly when it is missing or empty,
      or has no non-empty type, no non-empty description and no attribute. */
  lemma GraphLinesEmpty(g: Option<KnowledgeGraph>)
    ensures GraphLines(g) == [] <==>
      (!GraphTruthy(g) ||
       (!TextTruthy(g.value.entityType) && !TextTruthy(g.value.description) && Items(g.value.attributes) == []))
  {
    if GraphTruthy(g) {
      var kg := g.value;
      assert |AttributeLines(Show(kg.title) + " ", Items(kg.attributes))| == |Items(kg.attributes)|;
    }
  }

  /** The order of the snippets handed on: the knowledge graph's lines, then
      the lines of each of the first K results in turn. */
  lemma {:induction false} SnippetOrder(p: Payload, i: nat)
    requires p.organic.Some? && i < |Take(p.organic.value, K)|
    ensures var top := Take(p.organic.value, K);
      Snippets(p) ==
        GraphLines(p.knowledgeGraph) + (OrganicLines(top[..i]) + EntryLines(top[i]) + OrganicLines(top[i + 1..]))
  {
    OrganicLinesSplit(Take(p.organic.value, K), i);
  }

  /** The lines of a run of results, split around the result at index `i`. */
  lemma {:induction false} OrganicLinesSplit(es: seq<Entry>, i: nat)
    requires i < |es|
    ensures OrganicLines(es) == OrganicLines(es[..i]) + EntryLines(es[i]) + OrganicLines(es[i + 1..])
  {
    var head := es[..i] + [es[i]];
    assert es == head + es[i + 1..];
    OrganicLinesAppend(head, es[i + 1..]);
    assert head[..|head| - 1] == es[..i];
  }

  /** Without a direct answer, a payload missing the `organic` key fails, even
      when the knowledge graph has lines. */
  lemma MissingOrganicFails(p: Payload)
    requires DirectAnswer(p.answerBox).None? && p.organic.None?
    ensures Expected(p) == Failed(OrganicMissing)
  {
  }

  // ---------------------------------------------------------------------------
  // Worked examples

  /** `answerBox = {answer: "42"}` gives the direct answer "42". */
  lemma ExampleAnswer(kg: Option<KnowledgeGraph>, organic: Option<seq<Entry>>)
    ensures Expected(Payload(Some(AnswerBox(Some("42"), None, None, false)), kg, organic)) == Direct("42")
  {
  }

  /** `answerBox = {snippetHighlighted: ["a", "b"]}` gives "a, b". */
  lemma ExampleHighlighted()
    ensures Expected(Payload(Some(AnswerBox(None, None, Some(["a", "b"]), false)), None, Some([]))) == Direct("a, b")
  {
    JoinExample();
  }

  /** `snippetHighlighted = [""]` is a non-empty list, so the direct answer is the empty text. */
  lemma ExampleEmptyHighlight()
    ensures Expected(Payload(Some(AnswerBox(None, Some(""), Some([""]), false)), None, Some([]))) == Direct("")
  {
  }

  /** `knowledgeGraph = {title: "X", type: "Person"}` and no organic results
      give the one snippet "X: Person."; without a title it reads "None: Person.". */
  lemma ExampleGraph()
    ensures Expected(Payload(None, Some(KnowledgeGraph(Some("X"), Some("Person"), None, None, false)), Some([])))
      == Summarize(["X: Person."], [])
    ensures Expected(Payload(None, Some(KnowledgeGraph(None, Some("Person"), None, None, false)), Some([])))
      == Summarize(["None: Person."], [])
  {
    assert "X" + ": " + "Person" + "." == "X: Person.";
    assert "None" + ": " + "Person" + "." == "None: Person.";
  }

  /** Nothing at all gives the sentinel. */
  lemma ExampleNothing()
    ensures Expected(Payload(None, None, Some([]))) == NoResults
  {
  }

  /** An organic `snippet` key with an empty value still counts as a snippet,
      unlike an empty answer-box field. */
  lemma ExampleEmptyOrganicSnippet()
    ensures Expected(Payload(Some(AnswerBox(Some(""), None, None, false)), None,
                             Some([Entry(Some(""), Some("u"), None)]))) == Summarize([""], ["u"])
  {
    assert [Entry(Some(""), Some("u"), None)][..0] == [];
  }
}

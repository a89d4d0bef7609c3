# Search tool result extraction, in Dafny

A model of the `Search` tool of the AgentGPT platform
(`platform/reworkd_platform/web/api/agent/tools/search.py`). The tool sends a
query to the Serper.dev Google search API and reduces the JSON answer to one
of three outcomes:

- a **direct answer** from the `answerBox` (its `answer`, else its `snippet`
  with line feeds turned into spaces, else its `snippetHighlighted` list
  joined with `", "`), streamed as one final chunk;
- the **sentinel** `"No good Google Search Result was found"`, streamed as one
  final chunk, when nothing was gathered;
- a **summarization request** carrying the snippets gathered from the
  `knowledgeGraph` (type line, description, one line per attribute) and from
  the first 6 `organic` results (snippet, then one line per attribute). Up to
  3 links are gathered beside them and then dropped.

Files:

- `wrappers.dfy`: `Option`.
- `text.dfy`: Python's `str.replace("\n", " ")` and `sep.join(parts)`.
- `payload.dfy`: the provider's JSON as records of optional fields, and Python
  truthiness. A mapping records whether it holds keys the code never reads,
  because Python treats a mapping as true exactly when it has a key.
- `extraction.dfy`: the reference definition `Expected` of what `call` decides
  for a payload, and the properties proved about it.
- `search.dfy`: `Extract`, the body of `call` written as the source writes it
  (local snippet and link sequences extended step by step, a loop over every
  element of `organic[:6]` whose link append is guarded by the link count,
  early returns), proved equal to `Expected`; `Route`, which sends each outcome
  to the streaming or summarizing collaborator; `Call`, which adds the
  transport failure; `Available`, the "API key configured" gate of lines 47-49.

Points where the code's behaviour is easy to misread:

- the knowledge graph's `type` and `description` are used when they are
  non-empty (Python truthiness), not merely when the keys are present;
- a `snippetHighlighted` list of empty strings is a non-empty list, so it gives
  a direct answer that may be empty (`[""]` gives `""`);
- a payload without the `organic` key raises `KeyError` (the outcome
  `Failed(OrganicMissing)`) instead of being treated as having no results,
  unless the answer box already answered;
- a missing knowledge-graph `title` is rendered as the text `None`.

## Model

| member | source | states |
|---|---|---|
| SearchTool.Extract | platform/reworkd_platform/web/api/agent/tools/search.py:58-99 | the step-by-step extraction returns exactly `Expected(p)`: the loop over the first 6 organic results keeps the snippets equal to the graph lines plus the lines of the results seen so far, and the links equal to the first 3 links seen so far |
| SearchTool.Call | platform/reworkd_platform/web/api/agent/tools/search.py:51-99 | a transport failure is raised as `ProviderError` before any extraction; otherwise the response is the routed outcome of the payload; every streamed response is final |
| SearchTool.DirectAnswerStreamed | platform/reworkd_platform/web/api/agent/tools/search.py:63-74 | whenever the answer box yields an answer, the call streams exactly that answer as the final chunk |
| SearchTool.MissingOrganicRaised | platform/reworkd_platform/web/api/agent/tools/search.py:87 | without a direct answer, a payload missing `organic` makes the call raise the `KeyError` |
| SearchTool.Route | platform/reworkd_platform/web/api/agent/tools/search.py:74-99 | a direct answer is streamed verbatim and no results as the sentinel, both as the final chunk; a summarize outcome goes to the summarizer with its snippets and without its links; a failure is raised |
| SearchTool.Available | platform/reworkd_platform/web/api/agent/tools/search.py:47-49 | the one-line test "an API key is configured": unavailable without a key, available with any key, even an empty one |
| SearchTool.SummarizerGetsSnippets | platform/reworkd_platform/web/api/agent/tools/search.py:96-99 | the summarizer receives exactly the gathered snippets, in order, and never an empty list |
| SearchTool.SentinelWhenNoSnippets | platform/reworkd_platform/web/api/agent/tools/search.py:96-97 | without a direct answer, the sentinel is streamed as final exactly when no snippet was gathered |
| SearchTool.LinksNeverEmitted | platform/reworkd_platform/web/api/agent/tools/search.py:99-102 | the gathered links have no effect on what reaches the caller |
| Text.ReplaceNewlines | platform/reworkd_platform/web/api/agent/tools/search.py:69 | same length as the input; each line feed becomes a space and every other character is kept in place |
| Text.NoNewlineAfterReplace | platform/reworkd_platform/web/api/agent/tools/search.py:69 | the replaced snippet holds no line feed, and a snippet without one is unchanged |
| Text.JoinOne | platform/reworkd_platform/web/api/agent/tools/search.py:73-74 | joining the one collected answer with "\n" yields that answer unchanged |
| Text.JoinAppend | platform/reworkd_platform/web/api/agent/tools/search.py:71 | joining parts plus one more adds the separator and that part at the end |
| Text.JoinExample | platform/reworkd_platform/web/api/agent/tools/search.py:71 | `", ".join(["a", "b"])` is `"a, b"` |
| Extraction.Take | platform/reworkd_platform/web/api/agent/tools/search.py:87 | `xs[:n]` is the prefix of `xs` of length `min(n, len(xs))` |
| Extraction.AttributeLines | platform/reworkd_platform/web/api/agent/tools/search.py:83-86 | one line per attribute |
| Extraction.AttributeLinesAt | platform/reworkd_platform/web/api/agent/tools/search.py:92-95 | the i-th attribute line is `"{prefix}{attribute}: {value}."` for the i-th attribute, in insertion order |
| Extraction.OrganicLinesStep | platform/reworkd_platform/web/api/agent/tools/search.py:87-95 | one more organic result appends its lines and its link after those of the results before it |
| Extraction.TakeGrow | platform/reworkd_platform/web/api/agent/tools/search.py:90-91 | a new link is kept exactly while fewer than the bound are kept |
| Extraction.GatherSnippetsStep | platform/reworkd_platform/web/api/agent/tools/search.py:88-89 | appending a result's snippet (if the key is there) then its attribute lines extends the gathered lines by that result's lines |
| Extraction.GatherLinksStep | platform/reworkd_platform/web/api/agent/tools/search.py:90-91 | appending a result's link while fewer than 3 are kept keeps the links equal to the first 3 links seen |
| Extraction.AnswerFirst | platform/reworkd_platform/web/api/agent/tools/search.py:63-67 | a non-empty `answer` is the direct answer, verbatim |
| Extraction.SnippetSecond | platform/reworkd_platform/web/api/agent/tools/search.py:68-69 | without an answer, a non-empty `snippet` gives the direct answer `ReplaceNewlines(snippet)`: same length, every line feed turned into a space, other characters kept |
| Extraction.HighlightedThird | platform/reworkd_platform/web/api/agent/tools/search.py:70-71 | without an answer or snippet, a non-empty `snippetHighlighted` gives its elements joined with ", " |
| Extraction.DirectIgnoresRest | platform/reworkd_platform/web/api/agent/tools/search.py:73-74 | once the answer box answers, the knowledge graph and organic results (even a missing `organic` key) make no difference |
| Extraction.NoDirectAnswerIff | platform/reworkd_platform/web/api/agent/tools/search.py:63-73 | the answer box yields nothing exactly when it is missing or empty or its three fields are all empty or missing |
| Extraction.SilentBoxFallsThrough | platform/reworkd_platform/web/api/agent/tools/search.py:63-76 | an answer box that yields nothing gives the same outcome as no answer box at all |
| Extraction.OnlyFirstSixOrganic | platform/reworkd_platform/web/api/agent/tools/search.py:58-87 | payloads that differ only in organic results from index 6 on have the same outcome |
| Extraction.OrganicLinesAppend | platform/reworkd_platform/web/api/agent/tools/search.py:87-95 | the lines of two runs of results are those of the first followed by those of the second |
| Extraction.OrganicLinesSplit | platform/reworkd_platform/web/api/agent/tools/search.py:87-95 | the lines of the results before index i, then result i's, then the rest's |
| Extraction.LinksOfAppend | platform/reworkd_platform/web/api/agent/tools/search.py:87-91 | the links of two runs of results are those of the first followed by those of the second |
| Extraction.LinksOfMember | platform/reworkd_platform/web/api/agent/tools/search.py:90-91 | a text is among the links exactly when some result has it as its `link` |
| Extraction.LinksOfAllLinked | platform/reworkd_platform/web/api/agent/tools/search.py:90-91 | when every result has a link, the links are those of the results one for one, in order |
| Extraction.LinksBound | platform/reworkd_platform/web/api/agent/tools/search.py:59-91 | at most 3 links are kept; they are a prefix of the links of the first 6 results, exactly 3 when those carry 3 or more, all of them otherwise |
| Extraction.OrganicLinesEmpty | platform/reworkd_platform/web/api/agent/tools/search.py:87-95 | results yield no lines exactly when none has a `snippet` key or an attribute |
| Extraction.GraphLinesEmpty | platform/reworkd_platform/web/api/agent/tools/search.py:76-86 | the knowledge graph yields no line exactly when it is missing or empty or has no non-empty type, no non-empty description and no attribute |
| Extraction.NoResultsIff | platform/reworkd_platform/web/api/agent/tools/search.py:76-97 | the sentinel is the outcome exactly when there is no direct answer, `organic` is there, the graph yields nothing and none of the first 6 results has a snippet key or an attribute |
| Extraction.SnippetOrder | platform/reworkd_platform/web/api/agent/tools/search.py:76-95 | the snippets are the graph's lines, then each of the first 6 results' lines in turn |
| Extraction.MissingOrganicFails | platform/reworkd_platform/web/api/agent/tools/search.py:87 | without a direct answer, a missing `organic` key is a failure, whatever the knowledge graph holds |
| Extraction.ExampleAnswer | platform/reworkd_platform/web/api/agent/tools/search.py:66-67 | `{answer: "42"}` gives "42" whatever else the payload holds |
| Extraction.ExampleHighlighted | platform/reworkd_platform/web/api/agent/tools/search.py:70-71 | `{snippetHighlighted: ["a", "b"]}` gives "a, b" |
| Extraction.ExampleEmptyHighlight | platform/reworkd_platform/web/api/agent/tools/search.py:70-74 | an empty `snippet` is skipped and `[""]` gives the empty direct answer |
| Extraction.ExampleGraph | platform/reworkd_platform/web/api/agent/tools/search.py:78-80 | a graph with title "X" and type "Person" gives the one snippet "X: Person."; without a title, "None: Person." |
| Extraction.ExampleNothing | platform/reworkd_platform/web/api/agent/tools/search.py:96-97 | an empty payload with an empty `organic` list gives the sentinel |
| Extraction.ExampleEmptyOrganicSnippet | platform/reworkd_platform/web/api/agent/tools/search.py:88-91 | an organic `snippet` key with an empty value is still gathered, unlike an empty answer-box field |

## Left out

- `_google_serper_search_results` (lines 17-33), the HTTP POST: it is the
  `Fetch` parameter of `Call`; any transport or status failure is the single
  outcome `Raised(ProviderError)`.
- `stream_string` and `summarize`, whose source is not part of this model: they
  are the constructors `Streamed(text, final)` and `Summarized(goal, task, snippets)`.
- The model settings, the global settings object, the `Tool` base class and
  the tool's descriptions (lines 36-45): configuration and framework wiring.
- The `async`/`await` structure: extraction and routing do not suspend.
- JSON values of an unexpected type (a `null` snippet, a non-mapping
  `answerBox`, a non-string attribute value): the model takes every value to
  have the documented type, so the errors or `None` texts Python would give for
  them are not modelled.
- Attribute mappings are sequences of pairs in insertion order; that their
  keys are distinct is not stated, since nothing here depends on it.
- The commented-out link formatting (lines 101-102): dead code; the links are
  gathered and then dropped, as `SearchTool.LinksNeverEmitted` states.

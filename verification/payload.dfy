/** The JSON object the search provider returns, as far as the extraction step
    reads it. A key that may be missing is an `Option`; a nested mapping also
    records whether it holds keys the extraction never reads, because Python
    treats a mapping as true exactly when it has at least one key. */
module Payload {
  import opened Wrappers

  /** A mapping of attribute names to values, in insertion order. */
  type Attributes = seq<(string, string)>

  /** The `answerBox` section. */
  datatype AnswerBox = AnswerBox(
    answer: Option<string>,
    snippet: Option<string>,
    snippetHighlighted: Option<seq<string>>,
    otherKeys: bool)

  /** The `knowledgeGraph` section; `entityType` is the key `type`. */
  datatype KnowledgeGraph = KnowledgeGraph(
    title: Option<string>,
    entityType: Option<string>,
    description: Option<string>,
    attributes: Option<Attributes>,
    otherKeys: bool)

  /** One element of the `organic` list (its other keys are never read). */
  datatype Entry = Entry(snippet: Option<string>, link: Option<string>, attributes: Option<Attributes>)

  /** The whole response; `organic` is `None` when the key is missing. */
  datatype Payload = Payload(
    answerBox: Option<AnswerBox>,
    knowledgeGraph: Option<KnowledgeGraph>,
    organic: Option<seq<Entry>>)

  /** Python truthiness of an optional string: present and not empty. */
  predicate TextTruthy(s: Option<string>)
  {
    s.Some? && s.value != ""
  }

  /** Python truthiness of an optional list: present and not empty. */
  predicate ListTruthy(s: Option<seq<string>>)
  {
    s.Some? && s.value != []
  }

  /** `results.get("answerBox")` is true: the mapping is there and has a key. */
  predicate BoxTruthy(b: Option<AnswerBox>)
  {
    b.Some? &&
    (b.value.answer.Some? || b.value.snippet.Some? || b.value.snippetHighlighted.Some? || b.value.otherKeys)
  }

  /** `results.get("knowledgeGraph")` is true: the mapping is there and has a key. */
  predicate GraphTruthy(g: Option<KnowledgeGraph>)
  {
    g.Some? &&
    (g.value.title.Some? || g.value.entityType.Some? || g.value.description.Some? ||
     g.value.attributes.Some? || g.value.otherKeys)
  }

  /** `m.get("attributes", {}).items()`. */
  function Items(a: Option<Attributes>): Attributes
  {
    if a.Some? then a.value else []
  }

  /** How an f-string renders a value read with `.get`: a missing one is `None`. */
  function Show(v: Option<string>): string
  {
    if v.Some? then v.value else "None"
  }
}

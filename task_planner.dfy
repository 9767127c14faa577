/**
 * The task planner: asks a language model for a task plan built from
 * retrieved documents and for a summary of the full text. The model is an
 * opaque function from prompt to answer; a prompt template is the text
 * around its single `{document_content}` placeholder.
 */
module Planning {
  import opened Text
  import opened Embedding

  /** A prompt template with one placeholder: the text before it and the text after it. */
  datatype PromptTemplate = PromptTemplate(head: string, tail: string)

  /** The template with `content` put in place of the placeholder, whole and unchanged. */
  function Fill(template: PromptTemplate, content: string): (prompt: string)
    ensures |prompt| == |template.head| + |content| + |template.tail|
    ensures prompt[..|template.head|] == template.head
    ensures prompt[|template.head|..|template.head| + |content|] == content
    ensures prompt[|template.head| + |content|..] == template.tail
  {
    template.head + content + template.tail
  }

  /** Different contents give different prompts: no part of the content is cut off. */
  lemma FillInjective(template: PromptTemplate, a: string, b: string)
    requires Fill(template, a) == Fill(template, b)
    ensures a == b
  {
    assert |a| == |b|;
    assert a == Fill(template, a)[|template.head|..|template.head| + |a|];
  }

  /**
   * The planner's chat model (temperature 0) and its two prompts; the summary
   * template is built inside `generate_summary` but never changes either.
   */
  datatype TaskPlanner = TaskPlanner(llm: string -> string, taskPrompt: PromptTemplate, summaryPrompt: PromptTemplate)

  const Separator: string := "\n\n"

  function PageContents(documents: seq<Document>): seq<string>
  {
    seq(|documents|, i requires 0 <= i < |documents| => documents[i].pageContent)
  }

  /** The retrieved documents' contents in the given order, a blank line between neighbours. */
  function CombinedContent(documents: seq<Document>): string
  {
    Join(Separator, PageContents(documents))
  }

  /**
   * The model's answer to one prompt: the task template's text with the
   * documents' contents, joined by blank lines, in place of its placeholder.
   */
  function GenerateTasks(planner: TaskPlanner, relevantDocs: seq<Document>): (plan: string)
    ensures plan == planner.llm(planner.taskPrompt.head + Join(Separator, PageContents(relevantDocs)) + planner.taskPrompt.tail)
  {
    var combinedContent := CombinedContent(relevantDocs);
    planner.llm(Fill(planner.taskPrompt, combinedContent))
  }

  /**
   * The model's answer, returned as is, to one prompt: the summary
   * template's text with the whole full text, untruncated, in place of its
   * placeholder.
   */
  function GenerateSummary(planner: TaskPlanner, fullContent: string): (summary: string)
    ensures summary == planner.llm(planner.summaryPrompt.head + fullContent + planner.summaryPrompt.tail)
  {
    planner.llm(Fill(planner.summaryPrompt, fullContent))
  }

  /**
   * No documents combine to the empty string, one document to its own
   * content, and `n` documents to their contents plus `n - 1` separators of
   * two characters.
   */
  lemma CombinedContentSize(documents: seq<Document>)
    ensures documents == [] ==> CombinedContent(documents) == ""
    ensures |documents| == 1 ==> CombinedContent(documents) == documents[0].pageContent
    ensures |documents| >= 1 ==>
      |CombinedContent(documents)| == TotalLength(PageContents(documents)) + 2 * (|documents| - 1)
  {
    if |documents| >= 1 {
      JoinLength(Separator, PageContents(documents));
    }
  }

  /**
   * Document `i`'s content appears whole in the combined content, after the
   * earlier documents' contents and their separators, and right after a
   * blank-line separator unless it is the first.
   */
  lemma CombinedContentInOrder(documents: seq<Document>, i: nat)
    requires i < |documents|
    ensures var start := TotalLength(PageContents(documents)[..i]) + 2 * i;
      && start + |documents[i].pageContent| <= |CombinedContent(documents)|
      && CombinedContent(documents)[start..start + |documents[i].pageContent|] == documents[i].pageContent
      && (i > 0 ==> CombinedContent(documents)[start - 2..start] == "\n\n")
  {
    var contents := PageContents(documents);
    JoinAt(Separator, contents, i);
    if i > 0 {
      JoinLength(Separator, contents[..i]);
      assert PageContents(documents)[..i] == contents[..i];
    }
  }
}

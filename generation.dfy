/**
 * generate_response: the website text is cut to a fixed budget, embedded with
 * the question in a fixed prompt template, and handed to the completion
 * service; a failed call becomes a fixed apology.
 */
module Generation {
  import opened Wrappers

  /** The completion service: the reply text for a prompt, or None when the call raises. */
  type Completion = string -> Option<string>

  const MaxContextLength: nat := 5000

  const FallbackMessage: string :=
    "I apologize, but I encountered an error while processing your request. Please try again."

  /** The template around the context and the question, whitespace included. */
  const PromptHead: string := "\n        Based on this website content:\n        "
  const PromptMiddle: string := "\n\n        Question: "
  const PromptTail: string :=
    "\n\n        Please provide a clear and comprehensive answer based on the website content."
    + "\n        Format your response with markdown for better readability."
    + "\n        If the content doesn't contain relevant information, mention that and provide a general response."
    + "\n        "

  /** `part` occurs in `s` starting at index `i`. */
  predicate OccursAt(s: string, part: string, i: nat)
  {
    i + |part| <= |s| && s[i..i + |part|] == part
  }

  /** The context sent to the service: a hard prefix cut at MaxContextLength characters. */
  function TruncateContext(text: string): (r: string)
    ensures r <= text
    ensures |r| == if |text| <= MaxContextLength then |text| else MaxContextLength
  {
    if |text| > MaxContextLength then text[..MaxContextLength] else text
  }

  /** The prompt template with the context and the question filled in. */
  function BuildPrompt(context: string, query: string): (p: string)
    ensures |p| == |PromptHead| + |context| + |PromptMiddle| + |query| + |PromptTail|
    ensures p[..|PromptHead|] == PromptHead
    ensures OccursAt(p, context, |PromptHead|)
    ensures OccursAt(p, PromptMiddle, |PromptHead| + |context|)
    ensures OccursAt(p, query, |PromptHead| + |context| + |PromptMiddle|)
    ensures p[|p| - |PromptTail|..] == PromptTail
  {
    var p := PromptHead + context + PromptMiddle + query + PromptTail;
    assert p[|PromptHead|..|PromptHead| + |context|] == context;
    assert p[|PromptHead| + |context|..|PromptHead| + |context| + |PromptMiddle|] == PromptMiddle;
    assert p[|PromptHead| + |context| + |PromptMiddle|..|PromptHead| + |context| + |PromptMiddle| + |query|] == query;
    p
  }

  /** The prompt generate_response sends for a question about a website text. */
  function PromptFor(query: string, websiteText: string): (p: string)
    ensures OccursAt(p, TruncateContext(websiteText), |PromptHead|)
    ensures OccursAt(p, query, |PromptHead| + |TruncateContext(websiteText)| + |PromptMiddle|)
  {
    BuildPrompt(TruncateContext(websiteText), query)
  }

  /** The answer for `query`: the service's reply unchanged, or the fallback when the call fails. */
  function GenerateResponse(query: string, websiteText: string, complete: Completion): (answer: string)
    ensures complete(PromptFor(query, websiteText)).None? ==> answer == FallbackMessage
    ensures complete(PromptFor(query, websiteText)).Some? ==>
              answer == complete(PromptFor(query, websiteText)).value
  {
    match complete(PromptFor(query, websiteText))
    case Some(reply) => reply
    case None => FallbackMessage
  }

  /** The cut keeps the first MaxContextLength characters and the rest restores the text. */
  lemma TruncationSplitsText(text: string)
    ensures TruncateContext(text) + text[|TruncateContext(text)|..] == text
    ensures |text| > MaxContextLength ==> TruncateContext(text) == text[..MaxContextLength]
    ensures |text| <= MaxContextLength ==> TruncateContext(text) == text
  {
    var r := TruncateContext(text);
    assert text == text[..|r|] + text[|r|..];
  }

  /** Cutting an already cut context changes nothing. */
  lemma TruncationIdempotent(text: string)
    ensures TruncateContext(TruncateContext(text)) == TruncateContext(text)
  {
  }

  /** Characters past the budget never reach the prompt. */
  lemma TruncationIgnoresSuffix(text: string, extra: string)
    requires |text| >= MaxContextLength
    ensures TruncateContext(text + extra) == TruncateContext(text)
  {
    assert (text + extra)[..MaxContextLength] == text[..MaxContextLength];
  }

  /** Two prompts with equally long contexts are equal only when context and question are. */
  lemma PromptInjective(c1: string, q1: string, c2: string, q2: string)
    requires |c1| == |c2|
    requires BuildPrompt(c1, q1) == BuildPrompt(c2, q2)
    ensures c1 == c2 && q1 == q2
  {
    var p := BuildPrompt(c1, q1);
    assert c1 == p[|PromptHead|..|PromptHead| + |c1|] == c2;
  }

  /** The answer, and so the assistant message, is the same for any text beyond the budget. */
  lemma ResponseIgnoresSuffix(query: string, text: string, extra: string, complete: Completion)
    requires |text| >= MaxContextLength
    ensures GenerateResponse(query, text + extra, complete) == GenerateResponse(query, text, complete)
  {
    TruncationIgnoresSuffix(text, extra);
  }
}

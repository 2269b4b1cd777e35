/** The prompt templates of `generate_response`: numbered source blocks joined into a
    context, the fixed system instruction and the user prompt around context and question. */
module Prompt {
  import opened RagTypes
  import opened Text

  const SourceSeparator := "\n\n"

  /** `f"[Source {n}]:\n"`. */
  function SourceLabel(n: nat): string
  {
    "[Source " + NatToString(n) + "]:\n"
  }

  /** The source blocks, one per retrieved hit, labelled from 1 in retrieval order. */
  function SourceBlocks(relevant: seq<ScoredChunk>): seq<string>
  {
    seq(|relevant|, i requires 0 <= i < |relevant| => SourceLabel(i + 1) + relevant[i].chunk.text)
  }

  /** The `context` of `generate_response`: the source blocks joined by a blank line. */
  function Context(relevant: seq<ScoredChunk>): string
  {
    Join(SourceSeparator, SourceBlocks(relevant))
  }

  /** Where the block of hit `i` starts inside the context. */
  function BlockStart(relevant: seq<ScoredChunk>, i: nat): nat
    requires i < |relevant|
  {
    Offset(SourceSeparator, SourceBlocks(relevant), i)
  }

  /** The context holds, for every hit `i` in retrieval order, the label `[Source i+1]`
      followed by that hit's chunk text; a blank line separates consecutive blocks, and
      the last block ends the context. No hits give an empty context. */
  lemma ContextShape(relevant: seq<ScoredChunk>, i: nat)
    requires i < |relevant|
    ensures var start := BlockStart(relevant, i);
      var block := SourceLabel(i + 1) + relevant[i].chunk.text;
      start + |block| <= |Context(relevant)| &&
      Context(relevant)[start..start + |block|] == block &&
      (i + 1 < |relevant| ==>
        BlockStart(relevant, i + 1) == start + |block| + 2 &&
        BlockStart(relevant, i + 1) <= |Context(relevant)| &&
        Context(relevant)[start + |block|..start + |block| + 2] == SourceSeparator) &&
      (i + 1 == |relevant| ==> start + |block| == |Context(relevant)|)
    ensures Context([]) == ""
  {
    var blocks := SourceBlocks(relevant);
    JoinPartAt(SourceSeparator, blocks, i);
    if i + 1 < |relevant| {
      JoinSeparatorAt(SourceSeparator, blocks, i);
    } else {
      JoinLength(SourceSeparator, blocks);
    }
  }

  /** The labels of two different hits differ. */
  lemma SourceLabelsDistinct(m: nat, n: nat)
    requires m != n
    ensures SourceLabel(m) != SourceLabel(n)
  {
    var lm, ln := SourceLabel(m), SourceLabel(n);
    var dm, dn := NatToString(m), NatToString(n);
    NatToStringInjective(m, n);
    if |dm| == |dn| {
      assert lm[8..8 + |dm|] == dm;
      assert ln[8..8 + |dn|] == dn;
    } else {
      assert |lm| != |ln|;
    }
  }

  /** The system instruction of `generate_response`. */
  const SystemPrompt :=
    "You are a technical expert assistant specializing in KEITH LeakProof Drive systems. \n" +
    "Your role is to provide accurate, helpful information based on the technical documentation provided.\n" +
    "\n" +
    "Guidelines:\n" +
    "- Answer questions directly and concisely\n" +
    "- Use specific technical details from the documentation\n" +
    "- If asked about specifications, provide exact numbers and units\n" +
    "- If information is not in the documentation, clearly state that\n" +
    "- Be professional and helpful\n" +
    "- Reference specific features or specifications when relevant"

  const DocumentationHeader :=
    "Based on the following documentation about the KEITH LeakProof Drive, please answer the user's question.\n" +
    "\n" +
    "DOCUMENTATION:\n"

  const QuestionLabel := "\n\nUSER QUESTION: "

  const ClosingInstruction := "\n\nPlease provide a clear, accurate answer based on the documentation above."

  /** The user prompt shared by `generate_response` and `query_with_history`. */
  function UserPrompt(context: string, question: string): string
  {
    DocumentationHeader + context + QuestionLabel + question + ClosingInstruction
  }

  /** The user prompt opens with the documentation header, then holds the whole context,
      then the question label and the whole question, and closes with the fixed
      instruction; so the prompt determines the question once the context is known. */
  lemma UserPromptShape(context: string, question: string)
    ensures var p := UserPrompt(context, question);
      var c := |DocumentationHeader|;
      var q := c + |context| + |QuestionLabel|;
      |p| == q + |question| + |ClosingInstruction| &&
      p[..c] == DocumentationHeader &&
      p[c..c + |context|] == context &&
      p[c + |context|..q] == QuestionLabel &&
      p[q..q + |question|] == question &&
      p[q + |question|..] == ClosingInstruction
  {
  }

  /** Two prompts over the same context are equal only for the same question. */
  lemma UserPromptInjective(context: string, q1: string, q2: string)
    requires UserPrompt(context, q1) == UserPrompt(context, q2)
    ensures q1 == q2
  {
    UserPromptShape(context, q1);
    UserPromptShape(context, q2);
    var q := |DocumentationHeader| + |context| + |QuestionLabel|;
    assert |q1| == |q2|;
    assert UserPrompt(context, q1)[q..q + |q1|] == q1;
  }

  /** The two-message conversation `generate_response` sends. */
  function ResponseMessages(question: string, relevant: seq<ScoredChunk>): seq<Message>
  {
    [Message(System, SystemPrompt), Message(User, UserPrompt(Context(relevant), question))]
  }
}

/** The chat policy's constants and text templates (services/chat/config.py).

    A template is kept as the sequence of literal text and replacement fields
    that Python's `str.format` reads it as; none of the literals holds a brace. */
module ChatConfig {
  import opened Text

  datatype Piece = Lit(text: string) | Field(name: string)

  type Template = seq<Piece>

  /** Maximum number of human and AI messages a chat may hold before it is cut off. */
  const MessagesLimit: nat := 30

  /** Number of refused (off-topic) answers after which a chat is cut off. */
  const OffTopicCountLimit: int := 3

  /** The answer the model is told to give for an off-topic question, and the
      token the handler looks for, lower-cased, in every answer. */
  const RefusalReply := "Null"
  const Sentinel := "null"

  const PromptInstructions :=
    "Your task is to engage in this conversation. Answer the questions strictly based on the provided context "
    + "and the current conversation. Your answers must be as short as possible.\n"
    + "For off-topic, offensive messages or irrelevant questions, reply with: \""
  const PromptContextLabel := "\".\n\nContext: "
  const PromptHead := PromptInstructions + RefusalReply + PromptContextLabel

  /** `prompt`: the instructions followed by the `{context}` field. */
  const Prompt: Template := [Lit(PromptHead), Field("context")]

  const GeneralContext :=
    "\nThis conversation is about Hani, a Software/Data Engineer. You're having this conversation to answer people's questions\n"
    + "about Hani's experience and professional life."

  const OffTopicHead :=
    "It is whether your message is off-topic or I do not have enough information to answer it.\nYou have sent "
  const OffTopicLimitText := " out of 3"
  const OffTopicTail :=
    OffTopicLimitText + " off-topic messages. After the 3rd instance, this chat will be terminated.\n"
    + "\nIf you think this is a mistake, please rephrase your question and ask it again."

  /** `off_topic_response`: the warning with the `{off_topic_count}` field. */
  const OffTopicResponse: Template := [Lit(OffTopicHead), Field("off_topic_count"), Lit(OffTopicTail)]

  const AiFirstMessage :=
    "Welcome to the chat, feel free to ask any question about Hani's experience and work, and I'll do my best to answer."

  const LimitOutOfTopicMessage := "You reached 3 out of topic messages. This chat is terminated."
  const LimitLengthMessage :=
    "You reached the length limit for a single conversation. This conversation has been terminated."

  /** Every replacement field of `t` is called `name`. */
  predicate FieldsNamed(t: Template, name: string)
  {
    forall i :: 0 <= i < |t| ==> t[i].Field? ==> t[i].name == name
  }

  function FieldCount(t: Template): nat
  {
    if t == [] then 0 else (if t[0].Field? then 1 else 0) + FieldCount(t[1..])
  }

  function LiteralLength(t: Template): nat
  {
    if t == [] then 0 else (if t[0].Lit? then |t[0].text| else 0) + LiteralLength(t[1..])
  }

  /** `template.format(name=value)`: every field replaced by `value`, every
      literal kept. Naming a field other than `name` would raise KeyError in
      Python; the templates here never do. */
  function Format(t: Template, name: string, value: string): (r: string)
    requires FieldsNamed(t, name)
    ensures |r| == LiteralLength(t) + FieldCount(t) * |value|
  {
    if t == [] then ""
    else
      (match t[0] case Lit(s) => s case Field(_) => value) + Format(t[1..], name, value)
  }

  /** `prompt.format(context=c)` is the instructions followed by `c`, and the
      template's one field stands at its end. */
  lemma PromptFormat(c: string)
    ensures FieldsNamed(Prompt, "context")
    ensures FieldCount(Prompt) == 1 && Prompt[|Prompt| - 1] == Field("context")
    ensures Format(Prompt, "context", c) == PromptHead + c
  {
    var t := Prompt;
    assert t[1..] == [Field("context")] && t[1..][1..] == [];
    assert FieldCount(t[1..]) == 1 + FieldCount(t[1..][1..]);
    assert Format(t[1..], "context", c) == c + Format(t[1..][1..], "context", c);
  }

  /** `off_topic_response.format(off_topic_count=n)` puts `n` between the two
      fixed texts; the template's one field is `{off_topic_count}` and the text
      after it states the limit "out of 3". */
  lemma OffTopicFormat(n: string)
    ensures FieldsNamed(OffTopicResponse, "off_topic_count")
    ensures FieldCount(OffTopicResponse) == 1
    ensures Format(OffTopicResponse, "off_topic_count", n) == OffTopicHead + n + OffTopicTail
    ensures OffTopicTail[..|OffTopicLimitText|] == " out of 3"
  {
    var t, f := OffTopicResponse, "off_topic_count";
    var t1 := t[1..];
    var t2 := t1[1..];
    assert t1 == [Field(f), Lit(OffTopicTail)] && t2 == [Lit(OffTopicTail)] && t2[1..] == [];
    assert FieldCount(t) == FieldCount(t1) == 1 + FieldCount(t2) == 1 + FieldCount(t2[1..]);
    calc {
      Format(t, f, n);
      OffTopicHead + Format(t1, f, n);
      OffTopicHead + (n + Format(t2, f, n));
      OffTopicHead + (n + (OffTopicTail + Format(t2[1..], f, n)));
    }
  }

  /** The reply the prompt asks for on an off-topic question is what the
      handler detects: the prompt quotes "Null", and "Null" lower-cased is the
      sentinel. */
  lemma PromptAsksForSentinel()
    ensures Contains(PromptHead, RefusalReply)
    ensures Lower(RefusalReply) == Sentinel
  {
    var k := |PromptInstructions|;
    assert PromptHead[k..k + |RefusalReply|] == RefusalReply;
    assert OccursAt(PromptHead, RefusalReply, k);
    assert LowerChar('N') == 'n';
  }
}

/** The conversation graph of the cat-care assistant (src/genai/get_ai_response.py):
    check_specific -> model -> (summarize_conversation | END), run over a persisted
    message history and a rolling summary. This module holds the values and the
    pure decisions of each node, and `RunTurn`, the meaning of one whole turn;
    module ChatTurn runs the same graph step by step over mutable state. */
module ChatGraph {
  import opened Wrappers
  import opened Text

  datatype Role = Human | Ai | System

  /** A chat message. Messages built by the graph carry no id (`None`); the
      history reducer gives every stored message a fresh one. */
  datatype Message = Message(role: Role, content: string, id: Option<nat>)

  /** What the language model does with a prompt: answer with text, or raise. */
  datatype Outcome = Answered(content: string) | Raised(error: string)

  /** The language model, seen as an oracle from the prompt it is given. */
  type Llm = seq<Message> -> Outcome

  /** One call of the model on a prompt. */
  function Ask(llm: Llm, prompt: seq<Message>): Outcome
  {
    llm(prompt)
  }

  /** The fact sheet of the one tracked cat (src/db/cat_data is configuration). */
  datatype CatData = CatData(name: string, birthYear: nat, sex: string, breed: string, medicalHistory: seq<string>)

  /** What the checkpointer keeps for one thread between turns. */
  datatype Checkpoint = Checkpoint(messages: seq<Message>, summary: string)

  /** The edge taken after the model node. */
  datatype Next = Summarize | End

  const Marker: string := "花花"
  const Refusal: string := "這與貓咪照護無關，我無法回答"
  const TargetLanguage: string := "繁體中文"
  const SummaryPrefix: string := "Summary of conversation earlier: "
  /** More stored messages than this after a reply triggers summarization. */
  const MaxMessages: nat := 6

  // ---------------------------------------------------------------- check_specific

  /** Whether a message mentions the tracked cat, decided by a substring test. */
  function IsSpecific(content: string): (r: bool)
    ensures r <==> exists i :: OccursAt(content, Marker, i)
  {
    Contains(content, Marker)
  }

  // ---------------------------------------------------------------- create_system_prompt

  const Indent1: string := "            "
  const Indent2: string := "                "
  const Indent3: string := "                    "

  /** The literal parts of the general system prompt, around its two fields. */
  const GeneralTexts: seq<string> :=
    [ "\n"
      + Indent1 + "You are an AI assistant specialized in cat health care\n"
      + Indent1 + "Guidelines:\n"
      + Indent2 + "- Only answer questions related to cats\n"
      + Indent2 + "- Answer the questions in ",
      "\n"
      + Indent2 + "- If a question is not cat-related, respond: \"",
      "\"\n        " ]

  /** The general system prompt's fields: the target language and the refusal. */
  function GeneralFields(): (r: seq<string>)
    ensures |r| == 2 && r[0] == TargetLanguage && r[1] == Refusal
  {
    [TargetLanguage, Refusal]
  }

  /** The literal parts of the specific system prompt, around its twelve fields. */
  const SpecificTexts: seq<string> :=
    [ "\n"
      + Indent1 + "You are an AI assistant specialized in cat health care for ",
      "\n"
      + Indent1 + "Cat-Specific Information:\n"
      + Indent2 + "- Name: ",
      "\n"
      + Indent2 + "- Birth Year: ",
      "\n"
      + Indent2 + "- Basic Information: sex is ",
      ", breed is ",
      "\n"
      + Indent2 + "- Medical History: ",
      "\n"
      + Indent1 + "Guidelines:\n"
      + Indent2 + "- Identify whether the question is related to cat and is related to the specific\n"
      + Indent3 + "cat ",
      ", if no, answer as a general cat health expert without\n"
      + Indent3 + "mentioning specific cats.\n"
      + Indent2 + "- For questions about ",
      ", use his specific information to answer\n"
      + Indent2 + "- If you don't have some information about ",
      ",\n"
      + Indent3 + "you can directly answer you don't have the information\n"
      + Indent2 + "- Answer the questions in ",
      "\n"
      + Indent2 + "- If a question is not cat-related, respond: \"",
      "\"\n"
      + Indent1 + "Current year is ",
      "\n        " ]

  /** The specific system prompt's fields, in order: the cat's name (twice), birth year,
      sex, breed, medical history joined by ", ", the name three more times, the target
      language, the refusal and the current year. */
  function SpecificFields(year: nat, cat: CatData): (r: seq<string>)
    ensures |r| == 12
    ensures r[0] == cat.name && r[2] == NatToString(cat.birthYear) && r[3] == cat.sex && r[4] == cat.breed
    ensures r[5] == Join(cat.medicalHistory, ", ")
    ensures r[9] == TargetLanguage && r[10] == Refusal && r[11] == NatToString(year)
  {
    [ cat.name, cat.name, NatToString(cat.birthYear), cat.sex, cat.breed, Join(cat.medicalHistory, ", "),
      cat.name, cat.name, cat.name, TargetLanguage, Refusal, NatToString(year) ]
  }

  /** create_system_prompt(is_specific): the specific prompt when the turn is about the
      tracked cat, the general one otherwise. */
  function CreateSystemPrompt(specific: bool, year: nat, cat: CatData): string
  {
    if specific then Concat(Interleave(SpecificTexts, SpecificFields(year, cat)))
    else Concat(Interleave(GeneralTexts, GeneralFields()))
  }

  /** The general system prompt is one fixed text, whatever the year and the cat; it
      carries the refusal and the target-language instruction. */
  lemma GeneralSystemPrompt(year: nat, cat: CatData, year': nat, cat': CatData)
    ensures var r := CreateSystemPrompt(false, year, cat);
      && r == CreateSystemPrompt(false, year', cat')
      && Contains(r, Refusal) && Contains(r, TargetLanguage)
  {
    assert |GeneralTexts| == 3;
    FieldRendered(GeneralTexts, GeneralFields(), 0);
    FieldRendered(GeneralTexts, GeneralFields(), 1);
  }

  /** The specific system prompt carries the refusal, the target-language instruction,
      the current year and the whole fact sheet of the cat. */
  lemma SpecificSystemPrompt(year: nat, cat: CatData)
    ensures var r := CreateSystemPrompt(true, year, cat);
      && Contains(r, Refusal) && Contains(r, TargetLanguage)
      && Contains(r, cat.name) && Contains(r, NatToString(year))
      && Contains(r, NatToString(cat.birthYear)) && Contains(r, cat.sex) && Contains(r, cat.breed)
      && forall k :: 0 <= k < |cat.medicalHistory| ==> Contains(r, cat.medicalHistory[k])
  {
    var fields := SpecificFields(year, cat);
    assert |SpecificTexts| == 13;
    var r := Concat(Interleave(SpecificTexts, fields));
    FieldRendered(SpecificTexts, fields, 0);
    FieldRendered(SpecificTexts, fields, 2);
    FieldRendered(SpecificTexts, fields, 3);
    FieldRendered(SpecificTexts, fields, 4);
    FieldRendered(SpecificTexts, fields, 5);
    FieldRendered(SpecificTexts, fields, 9);
    FieldRendered(SpecificTexts, fields, 10);
    FieldRendered(SpecificTexts, fields, 11);
    forall k | 0 <= k < |cat.medicalHistory|
      ensures Contains(r, cat.medicalHistory[k])
    {
      ContainsTransitive(r, fields[5], cat.medicalHistory[k]);
    }
  }

  // ---------------------------------------------------------------- call_model

  /** The system prompt a prompt builder gives for a "specific" decision. */
  function SystemPrompt(promptFor: bool -> string, specific: bool): string
  {
    promptFor(specific)
  }

  /** The prompt builder of a deployment: create_system_prompt with the clock's year and
      the fact sheet fixed. */
  function PromptBuilder(year: nat, cat: CatData): bool -> string
  {
    specific => CreateSystemPrompt(specific, year, cat)
  }

  /** The prompt of the model node: the system prompt, then the summary as a system
      message when there is one, then the whole history in its own order. */
  function ModelInput(systemPrompt: string, summary: string, history: seq<Message>): (r: seq<Message>)
    ensures |r| == |history| + (if summary != "" then 2 else 1)
    ensures r[0] == Message(System, systemPrompt, None)
    ensures summary != "" ==> r[1] == Message(System, SummaryPrefix + summary, None)
    ensures r[|r| - |history|..] == history
  {
    var withSummary := if summary != "" then [Message(System, SummaryPrefix + summary, None)] + history else history;
    [Message(System, systemPrompt, None)] + withSummary
  }

  // ---------------------------------------------------------------- summarize_conversation

  const ExtendHead: string := "This is summary of the converation to date: "
  const ExtendTail: string := " \nExtend the summary by taking into account the new messages above"
    + "and ignore the content that is not realted to cat or cat care:"
  const CreateInstruction: string := "Create a summary of the conversation above,"
    + "ignoring the content that is not related to cat or cat health care"

  /** The closing instruction of the summarization prompt: extend the existing summary,
      which it quotes, or create one when there is none yet. */
  function SummaryInstruction(summary: string): (r: string)
    ensures summary != "" ==> r == ExtendHead + summary + ExtendTail && Contains(r, summary)
    ensures summary == "" ==> r == CreateInstruction
    ensures summary != "" <==> |r| >= |ExtendHead| && r[..|ExtendHead|] == ExtendHead
  {
    if summary != "" then
      ContainsPiece(ExtendHead, summary, ExtendTail);
      ExtendHead + summary + ExtendTail
    else
      assert CreateInstruction[0] != ExtendHead[0];
      CreateInstruction
  }

  /** The summarization prompt: the whole history, then one human message. */
  function SummaryPrompt(summary: string, history: seq<Message>): (r: seq<Message>)
    ensures |r| == |history| + 1 && r[..|history|] == history
    ensures r[|history|] == Message(Human, SummaryInstruction(summary), None)
  {
    history + [Message(Human, SummaryInstruction(summary), None)]
  }

  /** The ids of some messages. */
  function IdsOf(ms: seq<Message>): set<nat>
  {
    set i | 0 <= i < |ms| && ms[i].id.Some? :: ms[i].id.value
  }

  /** Python's `ms[:-2]`: every message but the last two (none when there are at most two). */
  function AllButLastTwo(ms: seq<Message>): (r: seq<Message>)
    ensures |ms| >= 2 ==> ms == r + ms[|ms| - 2..]
    ensures |ms| < 2 ==> r == []
  {
    if |ms| <= 2 then [] else ms[..|ms| - 2]
  }

  predicate Removed(m: Message, ids: set<nat>)
  {
    m.id.Some? && m.id.value in ids
  }

  /** The history reducer applied to removal markers: drops every message whose id is marked. */
  function RemoveIds(ms: seq<Message>, ids: set<nat>): (r: seq<Message>)
    ensures |r| <= |ms|
  {
    if ms == [] then []
    else RemoveIds(ms[..|ms| - 1], ids) + (if Removed(ms[|ms| - 1], ids) then [] else [ms[|ms| - 1]])
  }

  /** Removal keeps exactly the unmarked messages. */
  lemma {:induction false} RemoveIdsMembers(ms: seq<Message>, ids: set<nat>)
    ensures forall m :: m in RemoveIds(ms, ids) <==> m in ms && !Removed(m, ids)
    decreases |ms|
  {
    if ms != [] {
      var init, last := ms[..|ms| - 1], ms[|ms| - 1];
      RemoveIdsMembers(init, ids);
      assert ms == init + [last];
    }
  }

  // ---------------------------------------------------------------- should_continue

  /** The conditional edge after the model node. */
  function ShouldContinue(messages: seq<Message>): (r: Next)
    ensures r == Summarize <==> |messages| > MaxMessages
    ensures |messages| == MaxMessages ==> r == End
  {
    if |messages| > 6 then Summarize else End
  }

  // ---------------------------------------------------------------- stored histories

  /** Every stored message has an id, below `bound`, and no two share one. */
  predicate StoredIds(ms: seq<Message>, bound: nat)
  {
    && (forall i :: 0 <= i < |ms| ==> ms[i].id.Some? && ms[i].id.value < bound)
    && (forall i, j :: 0 <= i < j < |ms| ==> ms[i].id != ms[j].id)
  }

  /** Human and assistant messages take turns, the human first. */
  predicate Alternating(ms: seq<Message>)
  {
    forall i :: 0 <= i < |ms| ==> ms[i].role == if i % 2 == 0 then Human else Ai
  }

  /** What every checkpoint written by a turn satisfies. */
  predicate WellFormed(cp: Checkpoint, bound: nat)
  {
    && StoredIds(cp.messages, bound)
    && |cp.messages| <= MaxMessages
    && |cp.messages| % 2 == 0
    && Alternating(cp.messages)
  }

  // ---------------------------------------------------------------- one turn

  const IndexError: string := "list index out of range"

  datatype TurnResult = Replied(after: Checkpoint, reply: string) | Failed(error: string)

  /** One invocation of the compiled graph on a thread whose checkpoint is `cp`: append
      the user message, decide "specific" from it, call the model with the system prompt
      `promptFor` gives for that decision, then go on with `AfterModel`. `firstId` is the
      first fresh id the history reducer hands out. */
  function RunTurn(cp: Checkpoint, input: string, llm: Llm, promptFor: bool -> string, firstId: nat): TurnResult
  {
    var history := cp.messages + [Message(Human, input, Some(firstId))];
    var specific := IsSpecific(history[|history| - 1].content);
    AfterModel(cp.summary, history, Ask(llm, ModelInput(SystemPrompt(promptFor, specific), cp.summary, history)), llm, firstId + 1)
  }

  /** A turn asks the model once, about the history with the user message appended and
      with the system prompt for the decision taken on that message; a raise fails the
      turn, an answer is appended under the next id and the turn goes on with `Route`. */
  lemma RunTurnAsks(cp: Checkpoint, input: string, llm: Llm, promptFor: bool -> string, firstId: nat)
    ensures var history := cp.messages + [Message(Human, input, Some(firstId))];
      var out := Ask(llm, ModelInput(SystemPrompt(promptFor, IsSpecific(input)), cp.summary, history));
      && (out.Raised? ==> RunTurn(cp, input, llm, promptFor, firstId) == Failed(out.error))
      && (out.Answered? ==>
            RunTurn(cp, input, llm, promptFor, firstId) == Route(cp.summary, history + [Message(Ai, out.content, Some(firstId + 1))], llm))
  {
    var history := cp.messages + [Message(Human, input, Some(firstId))];
    assert history[|history| - 1].content == input;
  }

  /** The rest of a turn once the model has answered or raised: a raise fails the turn,
      an answer is appended as the reply and the turn goes on along the edge after the
      model node. */
  function AfterModel(summary: string, history: seq<Message>, out: Outcome, llm: Llm, replyId: nat): TurnResult
  {
    match out
    case Raised(e) => Failed(e)
    case Answered(text) => Route(summary, history + [Message(Ai, text, Some(replyId))], llm)
  }

  /** The conditional edge after the model node and what follows it: past the threshold
      the conversation is summarized; the reply is read off the last message left. */
  function Route(summary: string, replied: seq<Message>, llm: Llm): TurnResult
  {
    match ShouldContinue(replied)
    case End => if replied == [] then Failed(IndexError) else Replied(Checkpoint(replied, summary), replied[|replied| - 1].content)
    case Summarize => AfterSummary(replied, Ask(llm, SummaryPrompt(summary, replied)))
  }

  /** The end of a summarizing turn: keep the new summary and delete by id every message
      but the last two; the reply is read off the last message left. */
  function AfterSummary(replied: seq<Message>, out: Outcome): TurnResult
  {
    match out
    case Raised(e) => Failed(e)
    case Answered(newSummary) =>
      var kept := RemoveIds(replied, IdsOf(AllButLastTwo(replied)));
      if kept == [] then Failed(IndexError) else Replied(Checkpoint(kept, newSummary), kept[|kept| - 1].content)
  }

  // ---------------------------------------------------------------- pruning lemmas

  lemma {:induction false} RemoveIdsAppend(a: seq<Message>, b: seq<Message>, ids: set<nat>)
    ensures RemoveIds(a + b, ids) == RemoveIds(a, ids) + RemoveIds(b, ids)
    decreases |b|
  {
    if b != [] {
      var b' := b[..|b| - 1];
      assert (a + b)[..|a + b| - 1] == a + b';
      RemoveIdsAppend(a, b', ids);
    } else {
      assert a + b == a;
    }
  }

  lemma {:induction false} RemoveNothing(ms: seq<Message>, ids: set<nat>)
    requires forall i :: 0 <= i < |ms| ==> !Removed(ms[i], ids)
    ensures RemoveIds(ms, ids) == ms
    decreases |ms|
  {
    if ms != [] {
      RemoveNothing(ms[..|ms| - 1], ids);
      assert ms == ms[..|ms| - 1] + [ms[|ms| - 1]];
    }
  }

  lemma {:induction false} RemoveAll(ms: seq<Message>, ids: set<nat>)
    requires forall i :: 0 <= i < |ms| ==> Removed(ms[i], ids)
    ensures RemoveIds(ms, ids) == []
    decreases |ms|
  {
    if ms != [] {
      RemoveAll(ms[..|ms| - 1], ids);
    }
  }

  lemma InIdsOf(ms: seq<Message>, x: nat)
    requires x in IdsOf(ms)
    ensures exists j :: 0 <= j < |ms| && ms[j].id == Some(x)
  {
  }

  /** Deleting by id the messages before the last two leaves exactly the last two,
      in order, provided ids are unique. */
  lemma PruneKeepsLastTwo(ms: seq<Message>, bound: nat)
    requires StoredIds(ms, bound) && |ms| >= 2
    ensures RemoveIds(ms, IdsOf(AllButLastTwo(ms))) == ms[|ms| - 2..]
  {
    var a, b := AllButLastTwo(ms), ms[|ms| - 2..];
    var ids := IdsOf(a);
    RemoveIdsAppend(a, b, ids);
    forall i | 0 <= i < |a|
      ensures Removed(a[i], ids)
    {
      assert ms[i] == a[i];
    }
    RemoveAll(a, ids);
    forall i | 0 <= i < |b|
      ensures !Removed(b[i], ids)
    {
      if Removed(b[i], ids) {
        InIdsOf(a, b[i].id.value);
      }
    }
    RemoveNothing(b, ids);
  }

  /** Removal keeps ids present, bounded and distinct. */
  lemma {:induction false} RemoveIdsStored(ms: seq<Message>, ids: set<nat>, bound: nat)
    requires StoredIds(ms, bound)
    ensures StoredIds(RemoveIds(ms, ids), bound)
    decreases |ms|
  {
    if ms != [] {
      var init, last := ms[..|ms| - 1], ms[|ms| - 1];
      RemoveIdsStored(init, ids, bound);
      RemoveIdsMembers(init, ids);
      var r := RemoveIds(init, ids);
      forall i | 0 <= i < |r|
        ensures r[i].id != last.id
      {
        assert r[i] in init;
        var j :| 0 <= j < |init| && init[j] == r[i];
        assert ms[j] == init[j];
      }
    }
  }

  // ---------------------------------------------------------------- turn lemmas

  /** With unique ids, a summarizing turn fails only if the summarizer raises, and
      otherwise keeps exactly the last two messages under the new summary. */
  lemma AfterSummaryShape(replied: seq<Message>, out: Outcome, bound: nat)
    requires StoredIds(replied, bound) && |replied| >= 2
    ensures var r := AfterSummary(replied, out);
      && (out.Raised? ==> r == Failed(out.error))
      && (out.Answered? ==> r == Replied(Checkpoint(replied[|replied| - 2..], out.content), replied[|replied| - 1].content))
  {
    PruneKeepsLastTwo(replied, bound);
  }

  /** After the model call: the reply is the model's answer; within the threshold the
      reply is appended and the summary kept; past it only the last user message and the
      reply remain, under the summarizer's answer. A raise of either call fails the turn. */
  lemma AfterModelShape(summary: string, history: seq<Message>, out: Outcome, llm: Llm, replyId: nat)
    requires StoredIds(history, replyId) && |history| >= 1
    ensures var r := AfterModel(summary, history, out, llm, replyId);
      && (out.Raised? ==> r == Failed(out.error))
      && (out.Answered? ==>
            var answer := Message(Ai, out.content, Some(replyId));
            var replied := history + [answer];
            && (|replied| <= MaxMessages ==> r == Replied(Checkpoint(replied, summary), out.content))
            && (|replied| > MaxMessages ==>
                  var second := Ask(llm, SummaryPrompt(summary, replied));
                  && (second.Raised? ==> r == Failed(second.error))
                  && (second.Answered? ==>
                        r == Replied(Checkpoint([history[|history| - 1], answer], second.content), out.content))))
  {
    if out.Answered? {
      var answer := Message(Ai, out.content, Some(replyId));
      var replied := history + [answer];
      if |replied| > MaxMessages {
        assert StoredIds(replied, replyId + 1);
        AfterSummaryShape(replied, Ask(llm, SummaryPrompt(summary, replied)), replyId + 1);
        assert replied[|replied| - 2..] == [history[|history| - 1], answer];
      }
    }
  }

  /** How one turn from n stored messages ends. The model is asked once, with the
      system prompt for "specific" decided on the user's own message; if it raises the
      turn fails with that error. Otherwise its answer is the reply and the last stored
      message. When n + 2 stays within the threshold the user message and the reply are
      appended and the summary is kept. Past it the summarizer is asked; if it raises the
      turn fails, otherwise exactly the user message and the reply remain and the summary
      becomes the summarizer's answer. */
  lemma TurnShape(cp: Checkpoint, input: string, llm: Llm, promptFor: bool -> string, firstId: nat)
    requires StoredIds(cp.messages, firstId)
    ensures var r := RunTurn(cp, input, llm, promptFor, firstId);
      var user := Message(Human, input, Some(firstId));
      var history := cp.messages + [user];
      var first := Ask(llm, ModelInput(SystemPrompt(promptFor, IsSpecific(input)), cp.summary, history));
      && (first.Raised? ==> r == Failed(first.error))
      && (first.Answered? ==>
            var answer := Message(Ai, first.content, Some(firstId + 1));
            && (|cp.messages| + 2 <= MaxMessages ==> r == Replied(Checkpoint(history + [answer], cp.summary), first.content))
            && (|cp.messages| + 2 > MaxMessages ==>
                  var second := Ask(llm, SummaryPrompt(cp.summary, history + [answer]));
                  && (second.Raised? ==> r == Failed(second.error))
                  && (second.Answered? ==> r == Replied(Checkpoint([user, answer], second.content), first.content))))
  {
    var user := Message(Human, input, Some(firstId));
    var history := cp.messages + [user];
    var first := Ask(llm, ModelInput(SystemPrompt(promptFor, IsSpecific(input)), cp.summary, history));
    assert history[|history| - 1] == user;
    StoredAppend(cp.messages, user, firstId);
    AfterModelShape(cp.summary, history, first, llm, firstId + 1);
  }

  lemma StoredAppend(ms: seq<Message>, m: Message, bound: nat)
    requires StoredIds(ms, bound) && m.id == Some(bound)
    ensures StoredIds(ms + [m], bound + 1)
  {
  }

  /** Every successful turn writes back a well-formed checkpoint: ids unique and below the
      next fresh id, human and assistant messages alternating, and at most six messages,
      so the history handed to the model stays bounded. */
  lemma TurnPreservesWellFormed(cp: Checkpoint, input: string, llm: Llm, promptFor: bool -> string, firstId: nat)
    requires WellFormed(cp, firstId)
    ensures var r := RunTurn(cp, input, llm, promptFor, firstId);
      r.Replied? ==> WellFormed(r.after, firstId + 2)
  {
    var r := RunTurn(cp, input, llm, promptFor, firstId);
    TurnShape(cp, input, llm, promptFor, firstId);
    if r.Replied? {
      var user := Message(Human, input, Some(firstId));
      var answer := Message(Ai, r.reply, Some(firstId + 1));
      if |cp.messages| + 2 <= MaxMessages {
        WellFormedGrow(cp, user, answer, firstId);
      } else {
        WellFormedFresh(user, answer, r.after.summary, firstId);
      }
    }
  }

  lemma WellFormedGrow(cp: Checkpoint, user: Message, answer: Message, firstId: nat)
    requires WellFormed(cp, firstId) && |cp.messages| + 2 <= MaxMessages
    requires user == Message(Human, user.content, Some(firstId)) && answer == Message(Ai, answer.content, Some(firstId + 1))
    ensures WellFormed(Checkpoint(cp.messages + [user] + [answer], cp.summary), firstId + 2)
  {
    StoredAppend(cp.messages, user, firstId);
    StoredAppend(cp.messages + [user], answer, firstId + 1);
    AlternatingAppend(cp.messages, user, answer);
  }

  lemma WellFormedFresh(user: Message, answer: Message, summary: string, firstId: nat)
    requires user == Message(Human, user.content, Some(firstId)) && answer == Message(Ai, answer.content, Some(firstId + 1))
    ensures WellFormed(Checkpoint([user, answer], summary), firstId + 2)
  {
  }

  lemma AlternatingAppend(ms: seq<Message>, user: Message, answer: Message)
    requires Alternating(ms) && |ms| % 2 == 0 && user.role == Human && answer.role == Ai
    ensures Alternating(ms + [user] + [answer])
  {
    var r := ms + [user] + [answer];
    forall i | 0 <= i < |r|
      ensures r[i].role == if i % 2 == 0 then Human else Ai
    {
      if i < |ms| { assert r[i] == ms[i]; }
    }
  }
}

/** The turn driver of the cat-care assistant: one run of the compiled graph
    check_specific -> model -> (summarize_conversation | END) over a live graph state,
    and the per-user store of checkpoints that get_ai_response reads and writes. */
module ChatTurn {
  import opened Wrappers
  import opened Text
  import opened ChatGraph

  /** The only text a user sees when anything in a turn goes wrong. */
  const Fallback: string := "Sorry, I am unable to process your query at the moment."

  /** What precedes the error in the log line of a failed turn. */
  const QueryErrorPrefix: string := "Error processing query: "

  /** The graph state while one invocation runs: the history, the rolling summary, the
      "specific" flag, and the next fresh id the history reducer will hand out. */
  class ChatSession {
    var messages: seq<Message>
    var summary: string
    var isSpecific: bool
    var nextId: nat

    ghost predicate Valid()
      reads this
    {
      StoredIds(messages, nextId)
    }

    /** Resumes a thread from its checkpoint; every invocation starts non-specific. */
    constructor Load(cp: Checkpoint, firstId: nat)
      requires StoredIds(cp.messages, firstId)
      ensures Valid()
      ensures messages == cp.messages && summary == cp.summary && !isSpecific && nextId == firstId
    {
      messages := cp.messages;
      summary := cp.summary;
      isSpecific := false;
      nextId := firstId;
    }

    /** The history reducer given one new message: it is appended under a fresh id. */
    method AddMessage(role: Role, content: string)
      requires Valid()
      modifies this`messages, this`nextId
      ensures Valid()
      ensures messages == old(messages) + [Message(role, content, Some(old(nextId)))]
      ensures nextId == old(nextId) + 1
    {
      StoredAppend(messages, Message(role, content, Some(nextId)), nextId);
      messages := messages + [Message(role, content, Some(nextId))];
      nextId := nextId + 1;
    }

    /** The history reducer given removal markers: every message whose id is marked is
        dropped, the others keep their order. */
    method RemoveMessages(ids: set<nat>)
      requires Valid()
      modifies this`messages
      ensures Valid()
      ensures messages == RemoveIds(old(messages), ids)
    {
      var kept: seq<Message> := [];
      var i := 0;
      while i < |messages|
        invariant 0 <= i <= |messages|
        invariant kept == RemoveIds(messages[..i], ids)
      {
        assert messages[..i + 1][..i] == messages[..i];
        if !Removed(messages[i], ids) {
          kept := kept + [messages[i]];
        }
        i := i + 1;
      }
      assert messages[..i] == messages;
      RemoveIdsStored(messages, ids, nextId);
      messages := kept;
    }

    /** The check_specific node: the flag says whether the marker name occurs in the
        newest message, whatever the earlier ones say. */
    method CheckSpecific()
      requires |messages| > 0
      modifies this`isSpecific
      ensures isSpecific == IsSpecific(messages[|messages| - 1].content)
    {
      isSpecific := IsSpecific(messages[|messages| - 1].content);
    }

    /** The model node: asks the model once with the system prompt for the current flag,
        the summary message when there is a summary, and the history; an answer is
        appended as one new message under a fresh id, a raise leaves the state as it was. */
    method CallModel(llm: Llm, promptFor: bool -> string) returns (out: Outcome)
      requires Valid()
      modifies this`messages, this`nextId
      ensures Valid()
      ensures out == Ask(llm, ModelInput(SystemPrompt(promptFor, isSpecific), summary, old(messages)))
      ensures out.Raised? ==> messages == old(messages) && nextId == old(nextId)
      ensures out.Answered? ==> messages == old(messages) + [Message(Ai, out.content, Some(old(nextId)))] && nextId == old(nextId) + 1
    {
      out := Ask(llm, ModelInput(SystemPrompt(promptFor, isSpecific), summary, messages));
      if out.Answered? {
        AddMessage(Ai, out.content);
      }
    }

    /** The state update of summarize_conversation once the model has answered: the
        answer becomes the summary and every message but the last two is deleted by id. */
    method ApplySummary(text: string)
      requires Valid()
      modifies this`messages, this`summary
      ensures Valid()
      ensures summary == text && messages == RemoveIds(old(messages), IdsOf(AllButLastTwo(old(messages))))
      ensures |old(messages)| >= 2 ==> messages == old(messages)[|old(messages)| - 2..]
    {
      if |messages| >= 2 {
        PruneKeepsLastTwo(messages, nextId);
      }
      RemoveMessages(IdsOf(AllButLastTwo(messages)));
      summary := text;
    }

    /** The summarize_conversation node: asks the model for a summary of the history, then
        replaces the summary with the answer and deletes by id every message but the last
        two. A raise leaves the state as it was. */
    method SummarizeConversation(llm: Llm) returns (raised: Option<string>)
      requires Valid()
      modifies this`messages, this`summary
      ensures Valid()
      ensures var out := Ask(llm, SummaryPrompt(old(summary), old(messages)));
        && (out.Raised? ==> raised == Some(out.error) && messages == old(messages) && summary == old(summary))
        && (out.Answered? ==>
              raised == None && summary == out.content && messages == RemoveIds(old(messages), IdsOf(AllButLastTwo(old(messages)))))
      ensures raised == None && |old(messages)| >= 2 ==> messages == old(messages)[|old(messages)| - 2..]
    {
      var out := Ask(llm, SummaryPrompt(summary, messages));
      match out
      case Raised(e) =>
        raised := Some(e);
      case Answered(text) =>
        ApplySummary(text);
        raised := None;
    }

    /** The edge after the model node and the summarize_conversation node when it is
        taken, then the reply read off the last message: what `Route` gives for the state
        after the model node. */
    method FinishTurn(llm: Llm) returns (result: Result<string, string>)
      requires Valid()
      modifies this`messages, this`summary
      ensures Valid()
      ensures var r := Route(old(summary), old(messages), llm);
        && (r.Replied? ==> result == Success(r.reply) && messages == r.after.messages && summary == r.after.summary)
        && (r.Failed? ==> result == Failure(r.error))
    {
      if ShouldContinue(messages) == Summarize {
        var raised := SummarizeConversation(llm);
        if raised.Some? {
          return Failure(raised.value);
        }
      }
      if messages == [] {
        return Failure(IndexError);
      }
      result := Success(messages[|messages| - 1].content);
    }

    /** The first two nodes of an invocation: the user message is added under a fresh
        id, check_specific sets the flag from it, and the model node runs once. */
    method BeginTurn(input: string, llm: Llm, promptFor: bool -> string) returns (out: Outcome)
      requires Valid()
      modifies this`messages, this`nextId, this`isSpecific
      ensures Valid()
      ensures var history := old(messages) + [Message(Human, input, Some(old(nextId)))];
        && out == Ask(llm, ModelInput(SystemPrompt(promptFor, IsSpecific(input)), summary, history))
        && (out.Answered? ==>
              messages == history + [Message(Ai, out.content, Some(old(nextId) + 1))] && nextId == old(nextId) + 2)
    {
      isSpecific := false;
      AddMessage(Human, input);
      CheckSpecific();
      assert isSpecific == IsSpecific(input);
      out := CallModel(llm, promptFor);
    }

    /** One invocation of the graph with a new user message: the outcome and the new state
        are those `RunTurn` gives for the state the invocation started from. */
    method Invoke(input: string, llm: Llm, promptFor: bool -> string) returns (result: Result<string, string>)
      requires Valid()
      modifies this
      ensures Valid()
      ensures var r := RunTurn(Checkpoint(old(messages), old(summary)), input, llm, promptFor, old(nextId));
        && (r.Replied? ==>
              result == Success(r.reply) && messages == r.after.messages && summary == r.after.summary && nextId == old(nextId) + 2)
        && (r.Failed? ==> result == Failure(r.error))
    {
      ghost var cp, id0 := Checkpoint(messages, summary), nextId;
      var out := BeginTurn(input, llm, promptFor);
      RunTurnAsks(cp, input, llm, promptFor, id0);
      if out.Raised? {
        return Failure(out.error);
      }
      result := FinishTurn(llm);
    }
  }

  /** A graph invocation on a thread resumed from `cp`: the outcome and, on success, the
      checkpoint written at its end. */
  method RunSession(cp: Checkpoint, firstId: nat, input: string, llm: Llm, promptFor: bool -> string)
    returns (result: Result<string, string>, after: Checkpoint)
    requires StoredIds(cp.messages, firstId)
    ensures var r := RunTurn(cp, input, llm, promptFor, firstId);
      && (r.Replied? ==> result == Success(r.reply) && after == r.after)
      && (r.Failed? ==> result == Failure(r.error))
  {
    var session := new ChatSession.Load(cp, firstId);
    result := session.Invoke(input, llm, promptFor);
    after := Checkpoint(session.messages, session.summary);
  }

  /** Every checkpoint the store keeps, keyed by the user id used as thread id. */
  class ChatStore {
    var threads: map<string, Checkpoint>
    var nextId: nat
    /** The error-level log lines written so far. */
    var errorLog: seq<string>

    /** Each stored thread is well formed, with ids below the next fresh id. */
    ghost predicate Valid()
      reads this
    {
      AllWellFormed(threads, nextId)
    }

    constructor ()
      ensures Valid() && threads == map[] && nextId == 0 && errorLog == []
    {
      threads := map[];
      nextId := 0;
      errorLog := [];
    }

    /** The checkpoint of a thread; a thread never seen starts empty, without a summary. */
    function Lookup(userId: string): (cp: Checkpoint)
      reads this
      ensures userId !in threads ==> cp.messages == [] && cp.summary == ""
      ensures userId in threads ==> cp == threads[userId]
    {
      if userId in threads then threads[userId] else Checkpoint([], "")
    }

    /** get_ai_response: runs one turn on the user's thread, with the system prompt of
        today's year and the cat's record. */
    method GetAiResponse(userInput: string, userId: string, llm: Llm, year: nat, cat: CatData) returns (reply: string)
      requires Valid()
      modifies this
      ensures Valid()
      ensures var r := RunTurn(old(Lookup(userId)), userInput, llm, PromptBuilder(year, cat), old(nextId));
        && (r.Replied? ==>
              reply == r.reply && threads == old(threads)[userId := r.after] && nextId == old(nextId) + 2 && errorLog == old(errorLog))
        && (r.Failed? ==>
              reply == Fallback && threads == old(threads) && nextId == old(nextId) && errorLog == old(errorLog) + [QueryErrorPrefix + r.error])
    {
      reply := Respond(userInput, userId, llm, PromptBuilder(year, cat));
    }

    /** One turn on the user's thread for any prompt builder. On success the new
        checkpoint is stored and the reply is the last message's content; on any failure
        the error is logged, the fixed fallback text is returned and nothing is stored. */
    method Respond(userInput: string, userId: string, llm: Llm, promptFor: bool -> string) returns (reply: string)
      requires Valid()
      modifies this
      ensures Valid()
      ensures var r := RunTurn(old(Lookup(userId)), userInput, llm, promptFor, old(nextId));
        && (r.Replied? ==>
              reply == r.reply && threads == old(threads)[userId := r.after] && nextId == old(nextId) + 2 && errorLog == old(errorLog))
        && (r.Failed? ==>
              reply == Fallback && threads == old(threads) && nextId == old(nextId) && errorLog == old(errorLog) + [QueryErrorPrefix + r.error])
    {
      var cp := Lookup(userId);
      assert WellFormed(cp, nextId);
      TurnPreservesWellFormed(cp, userInput, llm, promptFor, nextId);
      var result, after := RunSession(cp, nextId, userInput, llm, promptFor);
      match result
      case Success(text) =>
        StoreKeepsWellFormed(threads, userId, after, nextId);
        threads := threads[userId := after];
        nextId := nextId + 2;
        reply := text;
      case Failure(e) =>
        errorLog := errorLog + [QueryErrorPrefix + e];
        reply := Fallback;
    }
  }

  /** Every thread of a store is well formed below `bound`. */
  ghost predicate AllWellFormed(threads: map<string, Checkpoint>, bound: nat)
  {
    forall t :: t in threads ==> WellFormed(threads[t], bound)
  }

  /** Storing a checkpoint well formed below `bound + 2` keeps the whole store well
      formed once two more ids have been handed out. */
  lemma StoreKeepsWellFormed(threads: map<string, Checkpoint>, userId: string, cp: Checkpoint, bound: nat)
    requires AllWellFormed(threads, bound) && WellFormed(cp, bound + 2)
    ensures AllWellFormed(threads[userId := cp], bound + 2)
  {
    var stored := threads[userId := cp];
    forall t | t in stored
      ensures WellFormed(stored[t], bound + 2)
    {
      if t != userId {
        WellFormedMonotone(threads[t], bound, bound + 2);
      }
    }
  }

  /** A checkpoint stays well formed when more ids become available. */
  lemma WellFormedMonotone(cp: Checkpoint, bound: nat, bound': nat)
    requires WellFormed(cp, bound) && bound <= bound'
    ensures WellFormed(cp, bound')
  {
  }
}

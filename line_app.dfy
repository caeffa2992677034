/** The LINE text-message handler: which incoming events the bot answers, and the one
    reply it sends for each of them. */
module LineApp {
  import opened Wrappers
  import opened ChatGraph
  import opened ChatTurn

  /** A mentioned party; `isSelf` is `None` when the SDK object carries no `is_self`. */
  datatype Mentionee = Mentionee(isSelf: Option<bool>)

  datatype Mention = Mention(mentionees: seq<Mentionee>)

  /** Where an event comes from: its source type ("user", "group", "room", ...) and user id. */
  datatype Source = Source(kind: string, userId: string)

  /** A text message event: its source, its text, its mention object if any, and the
      token a reply must carry. */
  datatype TextEvent = TextEvent(source: Source, text: string, mention: Option<Mention>, replyToken: string)

  /** A reply request with one text message. */
  datatype Reply = Reply(replyToken: string, text: string)

  /** The mentionees of an event; a message without a mention object has none. */
  function Mentionees(e: TextEvent): (ms: seq<Mentionee>)
    ensures e.mention.None? ==> ms == []
    ensures e.mention.Some? ==> ms == e.mention.value.mentionees
  {
    if e.mention.Some? then e.mention.value.mentionees else []
  }

  /** `getattr(m, "is_self", False)`, read as a truth value. */
  predicate IsSelf(m: Mentionee)
  {
    m.isSelf == Some(true)
  }

  /** `any(...)` over the mentionees: some mentionee is the bot itself. */
  function AnySelf(ms: seq<Mentionee>): (r: bool)
    ensures r <==> exists i :: 0 <= i < |ms| && IsSelf(ms[i])
  {
    if ms == [] then false
    else if IsSelf(ms[0]) then true
    else
      var r := AnySelf(ms[1..]);
      assert forall i :: 1 <= i < |ms| ==> ms[i] == ms[1..][i - 1];
      assert r ==> IsSelf(ms[1..][0]) || exists i :: 1 <= i < |ms| && IsSelf(ms[i]) by {
        if r {
          var j :| 0 <= j < |ms[1..]| && IsSelf(ms[1..][j]);
          assert IsSelf(ms[j + 1]);
        }
      }
      r
  }

  /** The reply gate: direct chats always, groups only when the bot is mentioned, any
      other source never. */
  function ShouldReply(e: TextEvent): (r: bool)
    ensures e.source.kind == "user" ==> r
    ensures e.source.kind == "group" ==> (r <==> exists i :: 0 <= i < |Mentionees(e)| && IsSelf(Mentionees(e)[i]))
    ensures e.source.kind != "user" && e.source.kind != "group" ==> !r
  {
    e.source.kind == "user" || (e.source.kind == "group" && AnySelf(Mentionees(e)))
  }

  /** A group message without a mention object is never answered. */
  lemma GroupWithoutMentionIgnored(e: TextEvent)
    requires e.source.kind == "group" && e.mention.None?
    ensures !ShouldReply(e)
  {
  }

  /** Mentionees without the attribute, or with it false, never open the gate. */
  lemma MissingIsSelfIsFalse(e: TextEvent)
    requires e.source.kind == "group"
    requires forall i :: 0 <= i < |Mentionees(e)| ==> Mentionees(e)[i].isSelf != Some(true)
    ensures !ShouldReply(e)
  {
  }

  /** The text get_ai_response answers with for the outcome of a turn. */
  function ReplyText(r: TurnResult): (text: string)
    ensures r.Replied? ==> text == r.reply
    ensures r.Failed? ==> text == Fallback
  {
    if r.Replied? then r.reply else Fallback
  }

  /** The bot: the conversation store it answers from and the replies it has sent. */
  class LineBot {
    const store: ChatStore
    var sent: seq<Reply>

    ghost predicate Valid()
      reads this, store
    {
      store.Valid()
    }

    constructor (store: ChatStore)
      requires store.Valid()
      ensures Valid() && this.store == store && sent == []
    {
      this.store := store;
      sent := [];
    }

    /** handle_message: a qualifying event gets exactly one reply, with its own reply
        token and the text of one turn on the sender's thread; any other event is ignored
        and touches nothing. */
    method HandleMessage(e: TextEvent, llm: Llm, year: nat, cat: CatData)
      requires Valid()
      modifies this, store
      ensures Valid()
      ensures !ShouldReply(e) ==>
        sent == old(sent) && store.threads == old(store.threads) && store.nextId == old(store.nextId) && store.errorLog == old(store.errorLog)
      ensures ShouldReply(e) ==>
        var r := RunTurn(old(store.Lookup(e.source.userId)), e.text, llm, PromptBuilder(year, cat), old(store.nextId));
        && sent == old(sent) + [Reply(e.replyToken, ReplyText(r))]
        && (r.Replied? ==> store.threads == old(store.threads)[e.source.userId := r.after])
        && (r.Failed? ==> store.threads == old(store.threads))
    {
      if ShouldReply(e) {
        var text := store.GetAiResponse(e.text, e.source.userId, llm, year, cat);
        sent := sent + [Reply(e.replyToken, text)];
      }
    }
  }
}

/**
 * The floating chat bot of the landing page: a transcript that starts with
 * one bot greeting and only grows, an input field, a typing flag, and the
 * open / minimised flags of the panel.
 *
 * Sending does not reply at once: the handler schedules a timer with a
 * random delay, and the reply is appended when that timer fires. The model
 * keeps the timers that are scheduled and have not fired yet in
 * `pendingReplies`, each holding the input text it captured, and fires one
 * of them (any of them, since the delays are random) with `ReplyArrives`.
 */
module FrontPageChatBot {
  import opened Text
  import opened ResponseEngine

  datatype Sender = User | Bot

  /** One transcript entry; `id` and `timestamp` come from the clock and are opaque here. */
  datatype ChatMessage = ChatMessage(id: string, sender: Sender, content: string, timestamp: string)

  const GreetingText: string := "Hi! I'm here to help you learn about Stocks Labs AI. Ask me about our features, pricing, or how to get started!"

  /** How the panel is shown: the launcher button only, the full panel, or the header only. */
  datatype Panel = Closed | Expanded | Minimized

  /** The number of entries sent by `who`. */
  function Count(t: seq<ChatMessage>, who: Sender): nat {
    if t == [] then 0 else (if t[0].sender == who then 1 else 0) + Count(t[1..], who)
  }

  /** The texts of the user's entries, in order. */
  function UserTexts(t: seq<ChatMessage>): seq<string> {
    if t == [] then [] else (if t[0].sender == User then [t[0].content] else []) + UserTexts(t[1..])
  }

  /** Appending an entry adds one to its sender's count and leaves the other count alone. */
  lemma {:induction false} CountAppend(t: seq<ChatMessage>, m: ChatMessage, who: Sender)
    ensures Count(t + [m], who) == Count(t, who) + (if m.sender == who then 1 else 0)
  {
    if t != [] {
      assert (t + [m])[1..] == t[1..] + [m];
      CountAppend(t[1..], m, who);
    }
  }

  /** Appending a user entry appends its text to the user's texts; a bot entry adds none. */
  lemma {:induction false} UserTextsAppend(t: seq<ChatMessage>, m: ChatMessage)
    ensures UserTexts(t + [m]) == UserTexts(t) + (if m.sender == User then [m.content] else [])
  {
    if t != [] {
      assert (t + [m])[1..] == t[1..] + [m];
      UserTextsAppend(t[1..], m);
    }
  }

  /** Removing the k-th element of a sequence removes one occurrence of it from the multiset. */
  lemma RemoveAt<T>(s: seq<T>, k: nat)
    requires k < |s|
    ensures multiset(s[..k] + s[k + 1..]) == multiset(s) - multiset{s[k]}
  {
    assert s == s[..k] + [s[k]] + s[k + 1..];
  }

  /**
   * Appending a bot entry while one outstanding timer is dropped keeps every
   * user entry either answered or waiting, and keeps the waiting texts among
   * those the user sent.
   */
  lemma AnswerKeepsBalance(t: seq<ChatMessage>, pending: seq<string>, k: nat, entry: ChatMessage)
    requires k < |pending| && entry.sender == Bot
    requires Count(t, User) + 1 == Count(t, Bot) + |pending|
    requires multiset(pending) <= multiset(UserTexts(t))
    ensures Count(t + [entry], User) + 1 == Count(t + [entry], Bot) + |pending[..k] + pending[k + 1..]|
    ensures multiset(pending[..k] + pending[k + 1..]) <= multiset(UserTexts(t + [entry]))
  {
    CountAppend(t, entry, User);
    CountAppend(t, entry, Bot);
    UserTextsAppend(t, entry);
    RemoveAt(pending, k);
  }

  class ChatBot {
    var isOpen: bool
    var isMinimized: bool
    var messages: seq<ChatMessage>
    var inputMessage: string
    var isTyping: bool
    /** The input texts captured by reply timers that have not fired yet, in scheduling order. */
    var pendingReplies: seq<string>

    /**
     * The transcript starts with the greeting, every user entry is answered
     * by exactly one bot entry or is still waiting on a timer, every waiting
     * timer answers a text the user sent, and the typing flag is only up
     * while some timer is outstanding.
     */
    ghost predicate Valid()
      reads this
    {
      && |messages| >= 1
      && messages[0].sender == Bot && messages[0].content == GreetingText
      && Count(messages, User) + 1 == Count(messages, Bot) + |pendingReplies|
      && multiset(pendingReplies) <= multiset(UserTexts(messages))
      && (isTyping ==> pendingReplies != [])
    }

    function Visibility(): (p: Panel)
      reads this
      ensures p == Closed <==> !isOpen
      ensures p == Minimized <==> isOpen && isMinimized
    {
      if !isOpen then Closed else if isMinimized then Minimized else Expanded
    }

    /** The bot as mounted: closed, not minimised, one greeting with id "1". */
    constructor (now: string)
      ensures Valid()
      ensures messages == [ChatMessage("1", Bot, GreetingText, now)]
      ensures !isOpen && !isMinimized && Visibility() == Closed
      ensures inputMessage == "" && !isTyping && pendingReplies == []
    {
      isOpen := false;
      isMinimized := false;
      messages := [ChatMessage("1", Bot, GreetingText, now)];
      inputMessage := "";
      isTyping := false;
      pendingReplies := [];
    }

    /** The input field's change handler. */
    method SetInputMessage(text: string)
      requires Valid()
      modifies this`inputMessage
      ensures Valid() && inputMessage == text
    {
      inputMessage := text;
    }

    /**
     * `handleSendMessage`: blank input is ignored; otherwise the untrimmed
     * input is appended as a user entry, the field is cleared, the typing
     * flag is raised and a reply timer capturing the input is scheduled.
     * The handler itself does not look at `isTyping`.
     */
    method SendMessage(id: string, timestamp: string) returns (sent: bool)
      requires Valid()
      modifies this`messages, this`inputMessage, this`isTyping, this`pendingReplies
      ensures Valid()
      ensures sent <==> !IsBlank(old(inputMessage))
      ensures !sent ==> (messages == old(messages) && inputMessage == old(inputMessage)
        && isTyping == old(isTyping) && pendingReplies == old(pendingReplies))
      ensures sent ==> (messages == old(messages) + [ChatMessage(id, User, old(inputMessage), timestamp)]
        && inputMessage == "" && isTyping
        && pendingReplies == old(pendingReplies) + [old(inputMessage)])
    {
      if IsBlank(inputMessage) {
        return false;
      }
      var text := inputMessage;
      var entry := ChatMessage(id, User, text, timestamp);
      CountAppend(messages, entry, User);
      CountAppend(messages, entry, Bot);
      UserTextsAppend(messages, entry);
      messages := messages + [entry];
      inputMessage := "";
      isTyping := true;
      pendingReplies := pendingReplies + [text];
      sent := true;
    }

    /**
     * The k-th outstanding reply timer fires: one bot entry with the reply
     * to the text that timer captured is appended and the typing flag is
     * cleared, even if other timers are still outstanding.
     */
    method ReplyArrives(k: nat, id: string, timestamp: string)
      requires Valid() && k < |pendingReplies|
      modifies this`messages, this`isTyping, this`pendingReplies
      ensures Valid()
      ensures messages == old(messages) + [ChatMessage(id, Bot, GetResponse(old(pendingReplies[k])), timestamp)]
      ensures !isTyping
      ensures pendingReplies == old(pendingReplies[..k] + pendingReplies[k + 1..])
    {
      var entry := ChatMessage(id, Bot, GetResponse(pendingReplies[k]), timestamp);
      AnswerKeepsBalance(messages, pendingReplies, k, entry);
      messages := messages + [entry];
      isTyping := false;
      pendingReplies := pendingReplies[..k] + pendingReplies[k + 1..];
    }

    /** The launcher button: opens the panel, keeping whether it was minimised. */
    method Open()
      requires Valid()
      modifies this`isOpen
      ensures Valid() && isOpen
      ensures Visibility() == if isMinimized then Minimized else Expanded
    {
      isOpen := true;
    }

    /** The minimise button: flips between the full panel and the header only. */
    method ToggleMinimized()
      requires Valid()
      modifies this`isMinimized
      ensures Valid() && isMinimized == !old(isMinimized)
      ensures old(Visibility()) == Expanded ==> Visibility() == Minimized
      ensures old(Visibility()) == Minimized ==> Visibility() == Expanded
    {
      isMinimized := !isMinimized;
    }

    /** The close button: hides the panel; the minimised flag and the transcript are kept. */
    method Close()
      requires Valid()
      modifies this`isOpen
      ensures Valid() && !isOpen && Visibility() == Closed
    {
      isOpen := false;
    }
  }
}

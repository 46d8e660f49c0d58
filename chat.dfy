/**
 * The chat screen's transcript (`ChatScreen` in GUIproject/screens/chat.py):
 * the one-time greeting, sending a message, the deferred bot reply, and the
 * grid placement of the message bubbles.
 *
 * A deferred `bot_reply` callback is modelled as a queue of texts awaiting an
 * answer; firing the oldest one is an operation of its own. Keyboard focus,
 * scrolling and bubble layout are not modelled.
 */
module Chat {
  import opened Wrappers
  import opened Text
  import Bot

  const Greeting := "Hello, what can I help you?"
  const LoadingText := "Loading my brain\U{2026} please try again in a moment."
  const UserSender := "user"
  const BotSender := "bot"

  /** One message bubble and the grid cell it occupies. */
  datatype Bubble = Bubble(sender: string, text: string, row: nat, column: nat)

  /** The screen's state: greeted yet, the entry text, the bubbles in order, and the texts awaiting a reply. */
  datatype Transcript = Transcript(greeted: bool, entry: string, bubbles: seq<Bubble>, pending: seq<string>)

  /** The right lane (column 2) for the user, the left lane (column 0) for anyone else. */
  function Lane(sender: string): nat
  {
    if sender == UserSender then 2 else 0
  }

  /** `add_message(sender, text)`: a new bubble in the next free row. */
  function WithMessage(t: Transcript, sender: string, text: string): Transcript
  {
    t.(bubbles := t.bubbles + [Bubble(sender, text, |t.bubbles|, Lane(sender))])
  }

  /** `on_show()`: greet on the first show only. */
  function AfterShow(t: Transcript): Transcript
  {
    if t.greeted then t else WithMessage(t, BotSender, Greeting).(greeted := true)
  }

  /** `_on_send()`: ignore a blank entry; otherwise clear it, post the user's text and schedule its reply. */
  function AfterSend(t: Transcript): Transcript
  {
    var text := Strip(t.entry);
    if text == [] then t
    else WithMessage(t.(entry := ""), UserSender, text).(pending := t.pending + [text])
  }

  /**
   * The oldest scheduled `bot_reply` runs: `answer` is None without an
   * assistant, and otherwise what `assistant.reply(text)` returns; a failure
   * propagates out of the callback and posts nothing.
   */
  function AfterReply(t: Transcript, answer: Option<Result<string>>): Transcript
    requires t.pending != []
  {
    var rest := t.(pending := t.pending[1..]);
    match answer
    case None => WithMessage(rest, BotSender, LoadingText)
    case Some(Success(text)) => WithMessage(rest, BotSender, text)
    case Some(Failure(_)) => rest
  }

  /** Every bubble sits in the row equal to its position, in its sender's lane. */
  predicate Placed(t: Transcript)
  {
    forall k :: 0 <= k < |t.bubbles| ==> t.bubbles[k].row == k && t.bubbles[k].column == Lane(t.bubbles[k].sender)
  }

  function Initial(): Transcript
  {
    Transcript(false, "", [], [])
  }

  /** Each message goes in a new row equal to the row count, in its sender's lane; every operation keeps that. */
  lemma PlacementKept(t: Transcript, answer: Option<Result<string>>)
    requires Placed(t)
    ensures Placed(Initial())
    ensures Placed(AfterShow(t)) && Placed(AfterSend(t))
    ensures t.pending != [] ==> Placed(AfterReply(t, answer))
  {
    WithMessagePlaced(t, BotSender, Greeting);
    if Strip(t.entry) != [] {
      WithMessagePlaced(t.(entry := ""), UserSender, Strip(t.entry));
    }
    if t.pending != [] {
      var rest := t.(pending := t.pending[1..]);
      if answer.None? {
        WithMessagePlaced(rest, BotSender, LoadingText);
      } else if answer.value.Success? {
        WithMessagePlaced(rest, BotSender, answer.value.value);
      }
    }
  }

  lemma WithMessagePlaced(t: Transcript, sender: string, text: string)
    requires Placed(t)
    ensures Placed(WithMessage(t, sender, text))
  {
    var b := WithMessage(t, sender, text).bubbles;
    forall k | 0 <= k < |b|
      ensures b[k].row == k && b[k].column == Lane(b[k].sender)
    {
      if k < |t.bubbles| {
        assert b[k] == t.bubbles[k];
      }
    }
  }

  /**
   * The greeting is added on the first show only, as a bot bubble in the left
   * lane of row 0 of an empty transcript; later shows change nothing.
   */
  lemma GreetOnce(t: Transcript)
    ensures AfterShow(AfterShow(t)) == AfterShow(t)
    ensures AfterShow(t).greeted
    ensures t.greeted ==> AfterShow(t) == t
    ensures AfterShow(Initial()).bubbles == [Bubble(BotSender, Greeting, 0, 0)]
  {
  }

  /**
   * A blank entry changes nothing; otherwise the entry is cleared, the stripped
   * text is posted as the user's bubble in the right lane, and its reply is
   * scheduled after every reply already pending.
   */
  lemma SendRule(t: Transcript)
    ensures Blank(t.entry) <==> AfterSend(t) == t
    ensures !Blank(t.entry) ==>
              var text := Strip(t.entry);
              && text != []
              && AfterSend(t).entry == ""
              && AfterSend(t).bubbles == t.bubbles + [Bubble(UserSender, text, |t.bubbles|, 2)]
              && AfterSend(t).pending == t.pending + [text]
              && AfterSend(t).greeted == t.greeted
  {
    StripEmptyIffBlank(t.entry);
    if !Blank(t.entry) {
      assert |AfterSend(t).bubbles| == |t.bubbles| + 1;
    }
  }

  /**
   * With nothing pending, a send followed by its reply posts the user's text
   * and then the answer in the next row of the left lane; without an
   * assistant the answer is the loading text.
   */
  lemma UserBeforeReply(t: Transcript, answer: Option<Result<string>>)
    requires t.pending == [] && !Blank(t.entry)
    ensures AfterSend(t).pending == [Strip(t.entry)]
    ensures var n := |t.bubbles|;
            var after := AfterReply(AfterSend(t), answer).bubbles;
            && after[..n + 1] == AfterSend(t).bubbles
            && after[n] == Bubble(UserSender, Strip(t.entry), n, 2)
            && (answer.None? ==> after == AfterSend(t).bubbles + [Bubble(BotSender, LoadingText, n + 1, 0)])
            && (answer.Some? && answer.value.Success? ==>
                  after == AfterSend(t).bubbles + [Bubble(BotSender, answer.value.value, n + 1, 0)])
  {
    SendRule(t);
  }

  class ChatScreen {
    /** The assistant preloaded by the application, or null when there is none. */
    const assistant: Bot.ChatbotAssistant?
    var greeted: bool
    var entry: string
    var bubbles: seq<Bubble>
    var pending: seq<string>

    function View(): Transcript
      reads this
    {
      Transcript(greeted, entry, bubbles, pending)
    }

    constructor (assistant: Bot.ChatbotAssistant?)
      ensures this.assistant == assistant && View() == Initial()
    {
      this.assistant := assistant;
      greeted := false;
      entry := "";
      bubbles := [];
      pending := [];
    }

    method AddMessage(sender: string, text: string)
      modifies this
      ensures View() == WithMessage(old(View()), sender, text)
    {
      var row := |bubbles|;
      var column := if sender == UserSender then 2 else 0;
      bubbles := bubbles + [Bubble(sender, text, row, column)];
    }

    method OnShow()
      modifies this
      ensures View() == AfterShow(old(View()))
    {
      if !greeted {
        AddMessage(BotSender, Greeting);
        greeted := true;
      }
    }

    method OnSend()
      modifies this
      ensures View() == AfterSend(old(View()))
    {
      var text := Strip(entry);
      if text == [] {
        return;
      }
      entry := "";
      AddMessage(UserSender, text);
      pending := pending + [text];
    }

    /** The oldest scheduled `bot_reply`, with the network's prediction and the random pick as inputs. */
    method BotReply(predict: seq<int> -> nat, pick: nat)
      requires pending != []
      modifies this
      ensures View() == AfterReply(old(View()),
                                  if assistant == null then None
                                  else Some(Bot.ReplyFor(assistant.View(), Some(old(pending)[0]), assistant.nlp, predict, pick)))
    {
      var text := pending[0];
      pending := pending[1..];
      if assistant == null {
        AddMessage(BotSender, LoadingText);
        return;
      }
      var reply := assistant.Reply(Some(text), predict, pick);
      if reply.Success? {
        AddMessage(BotSender, reply.value);
      }
    }
  }
}

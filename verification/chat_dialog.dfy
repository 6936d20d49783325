/** The chat dialog: user messages are coalesced into a turn, and one
    scripted reply is produced per turn once the user has stopped typing.
    The reply timer is an abstract slot holding at most one handle; a
    handle fires only while it is the one in the slot, so a cleared timer
    never fires. The three-second delay itself is not modelled. */
module Chat {
  import opened Types
  import opened JsText

  const MessageSeparator := "; "
  const OpeningMessage := "How are you doing lately?"

  // ----- the turn -----

  /** Index of the last reply in `msgs`, or -1 (`lastIndexOf('ai')`). */
  function LastAiIndex(msgs: seq<ChatMessage>): (r: int)
    ensures -1 <= r < |msgs|
    ensures r >= 0 ==> msgs[r].kind == Ai
    ensures forall j :: r < j < |msgs| ==> msgs[j].kind == User
  {
    if msgs == [] then -1
    else if msgs[|msgs| - 1].kind == Ai then |msgs| - 1
    else
      var init := msgs[..|msgs| - 1];
      var r := LastAiIndex(init);
      assert msgs == init + [msgs[|msgs| - 1]];
      assert msgs[|msgs| - 1].kind == User;
      r
  }

  /** The user messages of `msgs`, in order. */
  function UserMessages(msgs: seq<ChatMessage>): (r: seq<ChatMessage>)
    ensures forall j :: 0 <= j < |r| ==> r[j].kind == User
    ensures |r| <= |msgs|
  {
    if msgs == [] then []
    else if msgs[0].kind == User then [msgs[0]] + UserMessages(msgs[1..])
    else UserMessages(msgs[1..])
  }

  /** The current turn: the user messages after the last reply. */
  function Turn(msgs: seq<ChatMessage>): seq<ChatMessage> {
    UserMessages(msgs[LastAiIndex(msgs) + 1..])
  }

  /** Filtering a run of user messages keeps all of them. */
  lemma {:induction false} UserMessagesOfUserRun(s: seq<ChatMessage>)
    requires forall j :: 0 <= j < |s| ==> s[j].kind == User
    ensures UserMessages(s) == s
  {
    if s != [] {
      UserMessagesOfUserRun(s[1..]);
    }
  }

  /** The turn is exactly the suffix after the last reply (the whole list
      when there is none), and it holds only user messages. */
  lemma TurnIsSuffix(msgs: seq<ChatMessage>)
    ensures Turn(msgs) == msgs[LastAiIndex(msgs) + 1..]
    ensures LastAiIndex(msgs) == -1 ==> Turn(msgs) == msgs
    ensures forall j :: 0 <= j < |Turn(msgs)| ==> Turn(msgs)[j].kind == User
  {
    UserMessagesOfUserRun(msgs[LastAiIndex(msgs) + 1..]);
  }

  /** When the last message is from the user the turn is not empty and ends
      with that message. */
  lemma TurnEndsWithLastUserMessage(msgs: seq<ChatMessage>)
    requires msgs != [] && msgs[|msgs| - 1].kind == User
    ensures Turn(msgs) != [] && Turn(msgs)[|Turn(msgs)| - 1] == msgs[|msgs| - 1]
  {
    TurnIsSuffix(msgs);
  }

  // ----- the reply -----

  function Texts(msgs: seq<ChatMessage>): (r: seq<string>)
    ensures |r| == |msgs| && forall j :: 0 <= j < |msgs| ==> r[j] == msgs[j].text
  {
    if msgs == [] then [] else [msgs[0].text] + Texts(msgs[1..])
  }

  /** The scripted reply to a turn: its texts joined with "; " and quoted. */
  function ReplyText(turn: seq<ChatMessage>): string {
    "I received: \"" + Join(Texts(turn), MessageSeparator) + "\""
  }

  /** The reply quotes every message of the turn. */
  lemma ReplyQuotesTurn(turn: seq<ChatMessage>, k: nat)
    requires k < |turn|
    ensures Includes(ReplyText(turn), turn[k].text)
  {
    var joined := Join(Texts(turn), MessageSeparator);
    var t := turn[k].text;
    JoinContainsPart(Texts(turn), MessageSeparator, k);
    var i: nat :| OccursAt(joined, t, i);
    var pre := "I received: \"";
    var r := ReplyText(turn);
    OccursAfter(pre, joined, t, i);
    OccursBefore(pre + joined, "\"", t, |pre| + i);
    assert r == pre + joined + "\"";
    IncludesIff(r, turn[k].text);
  }

  /** A one-message turn is quoted verbatim. */
  lemma ReplyToSingleMessage(m: ChatMessage)
    ensures ReplyText([m]) == "I received: \"" + m.text + "\""
  {
  }

  /** The reply-scheduling predicate: the last message is the user's and
      nothing is being typed. */
  predicate ShouldGenerateResponse(msgs: seq<ChatMessage>, input: string, isTyping: bool) {
    msgs != [] && msgs[|msgs| - 1].kind == User && !isTyping && Trim(input) == ""
  }

  /** Once a reply has been appended nothing can be scheduled until the
      user writes again. */
  lemma NoReplyAfterReply(msgs: seq<ChatMessage>, reply: ChatMessage, input: string, isTyping: bool)
    requires reply.kind == Ai
    ensures !ShouldGenerateResponse(msgs + [reply], input, isTyping)
  {
  }

  // ----- the dialog -----

  class ChatDialog {
    var inputValue: string
    var messages: seq<ChatMessage>
    var isTyping: bool
    /** The pending reply, if any: the handle of the one armed timer. */
    var timer: Option<nat>
    /** The handle the next armed timer receives. */
    var nextTimer: nat

    /** The typing flag mirrors the input, and a timer is pending only while
        a reply may be scheduled; its handle is the last one handed out. */
    ghost predicate Valid()
      reads this
    {
      && isTyping == (Trim(inputValue) != "")
      && (timer.Some? ==> timer.value + 1 == nextTimer && ShouldGenerateResponse(messages, inputValue, isTyping))
    }

    /** The dialog opens with one greeting from the assistant. */
    constructor(now: int)
      ensures Valid()
      ensures messages == [ChatMessage(OpeningMessage, Ai, now)]
      ensures inputValue == "" && !isTyping && timer == None
    {
      inputValue := "";
      messages := [ChatMessage(OpeningMessage, Ai, now)];
      isTyping := false;
      timer := None;
      nextTimer := 0;
    }

    /** The reply-scheduling effect, run whenever the messages, the input or
        the typing flag change: clear the pending timer, then arm a fresh one
        if a reply may be scheduled. */
    method RearmReplyTimer()
      modifies this`timer, this`nextTimer
      ensures timer == if ShouldGenerateResponse(messages, inputValue, isTyping) then Some(old(nextTimer)) else None
      ensures nextTimer == if timer.Some? then old(nextTimer) + 1 else old(nextTimer)
    {
      timer := None;
      if ShouldGenerateResponse(messages, inputValue, isTyping) {
        timer := Some(nextTimer);
        nextTimer := nextTimer + 1;
      }
    }

    /** Editing the input: the typing flag follows the trimmed text. Typing
        cancels a pending reply; an unchanged input leaves the timer alone. */
    method HandleInputChange(text: string)
      requires Valid()
      modifies this
      ensures Valid()
      ensures messages == old(messages)
      ensures inputValue == text && isTyping == (Trim(text) != "")
      ensures text == old(inputValue) ==> timer == old(timer) && nextTimer == old(nextTimer)
      ensures text != old(inputValue) ==>
        && timer == (if ShouldGenerateResponse(messages, text, isTyping) then Some(old(nextTimer)) else None)
        && nextTimer == if timer.Some? then old(nextTimer) + 1 else old(nextTimer)
      ensures Trim(text) != "" ==> timer == None
    {
      var changed := text != inputValue;
      var typing := Trim(text) != "";
      inputValue := text;
      isTyping := typing;
      if changed {
        RearmReplyTimer();
      }
      assert typing ==> !ShouldGenerateResponse(messages, text, typing);
    }

    /** Sending: a blank input is ignored; otherwise the trimmed text is
        appended as a user message, the input is cleared and a reply is armed. */
    method HandleSendMessage(now: int)
      requires Valid()
      modifies this
      ensures Valid()
      ensures Trim(old(inputValue)) == "" ==>
        && messages == old(messages) && inputValue == old(inputValue) && isTyping == old(isTyping)
        && timer == old(timer) && nextTimer == old(nextTimer)
      ensures Trim(old(inputValue)) != "" ==>
        && messages == old(messages) + [ChatMessage(Trim(old(inputValue)), User, now)]
        && inputValue == "" && !isTyping
        && timer == Some(old(nextTimer)) && nextTimer == old(nextTimer) + 1
    {
      var trimmed := Trim(inputValue);
      if trimmed == "" {
        return;
      }
      messages := messages + [ChatMessage(trimmed, User, now)];
      inputValue := "";
      isTyping := false;
      RearmReplyTimer();
    }

    /** The timer with handle `handle` goes off. Only the pending timer
        acts: it replies once to the current turn, after which nothing is
        pending. */
    method FireTimer(handle: nat, now: int)
      requires Valid()
      modifies this
      ensures Valid()
      ensures old(timer) != Some(handle) ==>
        && messages == old(messages) && inputValue == old(inputValue) && isTyping == old(isTyping)
        && timer == old(timer) && nextTimer == old(nextTimer)
      ensures old(timer) == Some(handle) ==>
        && messages == old(messages) + [ChatMessage(ReplyText(Turn(old(messages))), Ai, now)]
        && inputValue == old(inputValue) && isTyping == old(isTyping)
        && timer == None && nextTimer == old(nextTimer)
    {
      if timer != Some(handle) {
        return;
      }
      var text := ReplyText(Turn(messages));
      messages := messages + [ChatMessage(text, Ai, now)];
      timer := None;
    }

    /** Closing the dialog clears the input, the typing flag and the pending
        timer and keeps the conversation. When the draft was not already
        empty, clearing it is itself a change the reply-scheduling effect
        reacts to, so a reply to a trailing user message is armed again. */
    method Close()
      requires Valid()
      modifies this
      ensures Valid()
      ensures messages == old(messages)
      ensures inputValue == "" && !isTyping
      ensures old(inputValue) == "" ==> timer == None && nextTimer == old(nextTimer)
      ensures old(inputValue) != "" ==>
        && timer == (if ShouldGenerateResponse(messages, "", false) then Some(old(nextTimer)) else None)
        && nextTimer == if timer.Some? then old(nextTimer) + 1 else old(nextTimer)
    {
      var changed := inputValue != "" || isTyping;
      inputValue := "";
      isTyping := false;
      timer := None;
      if changed {
        RearmReplyTimer();
      }
    }
  }

  /** A timer cleared by typing never fires, even once clearing the draft
      has armed a new one: the new timer gets a fresh handle. */
  method StaleTimerNeverFires(c: ChatDialog, typed: string, now: int)
    requires c.Valid() && c.timer.Some? && Trim(typed) != ""
    modifies c
    ensures c.messages == old(c.messages)
  {
    var h := c.timer.value;
    c.HandleInputChange(typed);
    c.HandleInputChange("");
    c.FireTimer(h, now);
  }

  /** A user message sent before any reply joins the current turn. */
  lemma TurnExtends(msgs: seq<ChatMessage>, m: ChatMessage)
    requires m.kind == User
    ensures Turn(msgs + [m]) == Turn(msgs) + [m]
  {
    var all := msgs + [m];
    assert all[..|all| - 1] == msgs;
    var k := LastAiIndex(msgs);
    assert LastAiIndex(all) == k;
    calc {
      Turn(all);
      { TurnIsSuffix(all); }
      all[k + 1..];
      { assert all[k + 1..] == msgs[k + 1..] + [m]; }
      msgs[k + 1..] + [m];
      { TurnIsSuffix(msgs); }
      Turn(msgs) + [m];
    }
  }

  /** A reply closes the turn: the next one starts empty. */
  lemma TurnAfterReply(msgs: seq<ChatMessage>, reply: ChatMessage)
    requires reply.kind == Ai
    ensures Turn(msgs + [reply]) == []
  {
  }

  /** Whatever came before, the messages the user sends one after another
      after a reply form one turn. */
  lemma {:induction false} CoalescedTurn(pre: seq<ChatMessage>, r: ChatMessage, us: seq<ChatMessage>)
    requires r.kind == Ai && forall j :: 0 <= j < |us| ==> us[j].kind == User
    ensures Turn(pre + [r] + us) == us
  {
    var h := pre + [r];
    if us == [] {
      assert h + us == h;
      TurnAfterReply(pre, r);
    } else {
      var init := us[..|us| - 1];
      var last := us[|us| - 1];
      assert us == init + [last];
      assert h + us == (h + init) + [last];
      calc {
        Turn(h + us);
        Turn((h + init) + [last]);
        { TurnExtends(h + init, last); }
        Turn(h + init) + [last];
        { CoalescedTurn(pre, r, init); }
        init + [last];
      }
    }
  }

  /** The user messages "a", "b" and "c" sent after the greeting draw the
      single reply `I received: "a; b; c"`. */
  lemma CoalescedReply(now: int, t1: int, t2: int, t3: int)
    ensures ReplyText(Turn([ChatMessage(OpeningMessage, Ai, now), ChatMessage("a", User, t1),
                            ChatMessage("b", User, t2), ChatMessage("c", User, t3)]))
            == "I received: \"a; b; c\""
  {
    var ma := ChatMessage("a", User, t1);
    var mb := ChatMessage("b", User, t2);
    var mc := ChatMessage("c", User, t3);
    var m0 := ChatMessage(OpeningMessage, Ai, now);
    CoalescedTurn([], m0, [ma, mb, mc]);
    assert [] + [m0] + [ma, mb, mc] == [m0, ma, mb, mc];
    assert Texts([ma, mb, mc]) == ["a", "b", "c"];
    assert Join(["a", "b", "c"], MessageSeparator) == "a; b; c" by {
      assert ["a", "b", "c"][1..] == ["b", "c"] && ["b", "c"][1..] == ["c"];
    }
  }
}

/** The state of the voice assistant panel and the actions that update it in
    place: typing, `sendMessage` with its delayed reply, and
    `toggleVoiceRecording` with its delayed recognition step. A closure
    scheduled with `asyncAfter` is modelled as an entry in a pending queue that
    a separate method consumes; every reply has the same delay, so replies
    arrive in the order their queries were sent. */
module AssistantView {
  import opened Models
  import opened Text
  import opened Assistant

  /** One bubble of the conversation; `id` stands for the fresh `UUID()`. */
  datatype AssistantMessage = AssistantMessage(id: nat, content: string, isUser: bool, timestamp: Timestamp)

  /** The contents of the user's bubbles, in order: the text of every user
      bubble is among them. */
  function UserTurns(log: seq<AssistantMessage>): (r: seq<string>)
    ensures |r| <= |log|
    ensures forall i :: 0 <= i < |log| && log[i].isUser ==> log[i].content in r
  {
    if log == [] then []
    else UserTurns(log[..|log| - 1]) + (if log[|log| - 1].isUser then [log[|log| - 1].content] else [])
  }

  /** The contents of the assistant's bubbles, in order: every entry is the
      text of an assistant bubble. */
  function Replies(log: seq<AssistantMessage>): (r: seq<string>)
    ensures |r| <= |log|
    ensures forall k :: 0 <= k < |r| ==>
      exists i :: 0 <= i < |log| && !log[i].isUser && log[i].content == r[k]
  {
    if log == [] then []
    else Replies(log[..|log| - 1]) + (if log[|log| - 1].isUser then [] else [log[|log| - 1].content])
  }

  /** No prefix of the log holds more replies than user bubbles: the k-th
      reply always comes after the k-th user bubble. */
  predicate RepliesFollowQueries(log: seq<AssistantMessage>)
  {
    log == [] ||
    (RepliesFollowQueries(log[..|log| - 1]) && |Replies(log)| <= |UserTurns(log)|)
  }

  /** Every bubble has a smaller id than every later one, and than `next`. */
  predicate IdsIncreasing(log: seq<AssistantMessage>, next: nat)
  {
    (forall i, j :: 0 <= i < j < |log| ==> log[i].id < log[j].id) &&
    (forall i :: 0 <= i < |log| ==> log[i].id < next)
  }

  /** The conversation so far is answered correctly: the k-th assistant bubble
      is the response to the k-th user bubble, the user bubbles not yet
      answered are exactly the queued queries, and no user bubble is blank. */
  predicate Answered(log: seq<AssistantMessage>, pending: seq<string>)
  {
    var asked, replied := UserTurns(log), Replies(log);
    |replied| + |pending| == |asked| &&
    (forall k :: 0 <= k < |replied| ==> replied[k] == GenerateResponse(asked[k])) &&
    pending == asked[|replied|..] &&
    RepliesFollowQueries(log) &&
    (forall k :: 0 <= k < |asked| ==> SendEnabled(asked[k]))
  }

  /** Appending a bubble with the next fresh id keeps ids increasing. */
  lemma IdsAfterAppend(log: seq<AssistantMessage>, next: nat, m: AssistantMessage)
    requires IdsIncreasing(log, next) && m.id == next
    ensures IdsIncreasing(log + [m], next + 1)
  {
  }

  lemma {:induction false} TurnsAfterAppend(log: seq<AssistantMessage>, m: AssistantMessage)
    ensures UserTurns(log + [m]) == UserTurns(log) + (if m.isUser then [m.content] else [])
    ensures Replies(log + [m]) == Replies(log) + (if m.isUser then [] else [m.content])
  {
    assert (log + [m])[..|log|] == log;
  }

  /** Every bubble is either a user turn or a reply. */
  lemma {:induction false} TurnsAndRepliesCoverLog(log: seq<AssistantMessage>)
    ensures |UserTurns(log)| + |Replies(log)| == |log|
  {
    if log != [] {
      TurnsAndRepliesCoverLog(log[..|log| - 1]);
    }
  }

  lemma FollowAfterAppend(log: seq<AssistantMessage>, m: AssistantMessage)
    requires RepliesFollowQueries(log) && |Replies(log + [m])| <= |UserTurns(log + [m])|
    ensures RepliesFollowQueries(log + [m])
  {
    assert (log + [m])[..|log|] == log;
  }

  /** Sending a non-blank query keeps the conversation answered, with the
      query queued last. */
  lemma AnsweredAfterSend(log: seq<AssistantMessage>, pending: seq<string>, m: AssistantMessage)
    requires Answered(log, pending) && m.isUser && SendEnabled(m.content)
    ensures Answered(log + [m], pending + [m.content])
  {
    TurnsAfterAppend(log, m);
    FollowAfterAppend(log, m);
    var asked, replied := UserTurns(log), Replies(log);
    assert (asked + [m.content])[|replied|..] == asked[|replied|..] + [m.content];
  }

  /** Answering the oldest queued query keeps the conversation answered. */
  lemma AnsweredAfterReply(log: seq<AssistantMessage>, pending: seq<string>, m: AssistantMessage)
    requires Answered(log, pending) && pending != []
    requires !m.isUser && m.content == GenerateResponse(pending[0])
    ensures Answered(log + [m], pending[1..])
  {
    TurnsAfterAppend(log, m);
    FollowAfterAppend(log, m);
    var asked, replied := UserTurns(log), Replies(log);
    var replied' := Replies(log + [m]);
    assert UserTurns(log + [m]) == asked && replied' == replied + [m.content];
    assert pending[0] == asked[|replied|];
    assert pending[1..] == asked[|replied'|..];
    assert forall k :: 0 <= k < |replied'| ==> replied'[k] == GenerateResponse(asked[k]) by {
      forall k | 0 <= k < |replied'| ensures replied'[k] == GenerateResponse(asked[k]) {
        if k < |replied| { assert replied'[k] == replied[k]; }
      }
    }
  }

  class Panel {
    var message: string
    var isListening: bool
    var messages: seq<AssistantMessage>
    var isProcessing: bool
    /** Queries whose reply closure is scheduled and has not run yet, oldest first. */
    var pendingReplies: seq<string>
    /** Recognition closures scheduled and not run yet. */
    var pendingVoiceSteps: nat
    /** The next fresh message identity. */
    var nextId: nat

    ghost predicate Valid()
      reads this
    {
      (isProcessing ==> pendingReplies != []) &&
      IdsIncreasing(messages, nextId) &&
      Answered(messages, pendingReplies)
    }

    /** The panel as it appears: empty input, not listening, no messages. */
    constructor ()
      ensures Valid()
      ensures message == "" && !isListening && messages == [] && !isProcessing
      ensures pendingReplies == [] && pendingVoiceSteps == 0
    {
      message := "";
      isListening := false;
      messages := [];
      isProcessing := false;
      pendingReplies := [];
      pendingVoiceSteps := 0;
      nextId := 0;
    }

    /** Editing the text field. */
    method Type(text: string)
      requires Valid()
      modifies this`message
      ensures Valid() && message == text
    {
      message := text;
    }

    /** `sendMessage()`: a blank input changes nothing; otherwise the input
        becomes a user bubble, the field is cleared, the panel shows that it is
        processing and the reply is scheduled. */
    method SendMessage(now: Timestamp) returns (sent: bool)
      requires Valid()
      modifies this`messages, this`message, this`isProcessing, this`pendingReplies, this`nextId
      ensures Valid()
      ensures sent == SendEnabled(old(message))
      ensures !sent ==> unchanged(this)
      ensures sent ==> message == "" && isProcessing
      ensures sent ==> messages == old(messages) + [AssistantMessage(old(nextId), old(message), true, now)]
      ensures sent ==> pendingReplies == old(pendingReplies) + [old(message)]
    {
      sent := SendEnabled(message);
      if !sent {
        return;
      }
      var userMessage := AssistantMessage(nextId, message, true, now);
      AnsweredAfterSend(messages, pendingReplies, userMessage);
      IdsAfterAppend(messages, nextId, userMessage);
      messages := messages + [userMessage];
      nextId := nextId + 1;
      pendingReplies := pendingReplies + [message];
      message := "";
      isProcessing := true;
    }

    /** The reply closure scheduled by the oldest pending send runs: the
        response to that query becomes an assistant bubble and the processing
        indicator is cleared (even when other replies are still pending). */
    method DeliverReply(now: Timestamp)
      requires Valid() && pendingReplies != []
      modifies this`messages, this`isProcessing, this`pendingReplies, this`nextId
      ensures Valid() && !isProcessing
      ensures pendingReplies == old(pendingReplies)[1..]
      ensures messages == old(messages) + [AssistantMessage(old(nextId), GenerateResponse(old(pendingReplies)[0]), false, now)]
    {
      var response := GenerateResponse(pendingReplies[0]);
      var assistantMessage := AssistantMessage(nextId, response, false, now);
      AnsweredAfterReply(messages, pendingReplies, assistantMessage);
      IdsAfterAppend(messages, nextId, assistantMessage);
      messages := messages + [assistantMessage];
      nextId := nextId + 1;
      pendingReplies := pendingReplies[1..];
      isProcessing := false;
    }

    /** `toggleVoiceRecording()`: flips listening; turning it on schedules the
        simulated recognition. */
    method ToggleVoiceRecording()
      requires Valid()
      modifies this`isListening, this`pendingVoiceSteps
      ensures Valid()
      ensures isListening == !old(isListening)
      ensures pendingVoiceSteps == old(pendingVoiceSteps) + (if isListening then 1 else 0)
    {
      isListening := !isListening;
      if isListening {
        pendingVoiceSteps := pendingVoiceSteps + 1;
      }
    }

    /** A scheduled recognition closure runs: if the panel is still listening,
        listening stops and the recognised question is put in the input field;
        otherwise nothing but the queue changes. */
    method VoiceRecognitionFires()
      requires Valid() && pendingVoiceSteps > 0
      modifies this`isListening, this`message, this`pendingVoiceSteps
      ensures Valid() && !isListening
      ensures pendingVoiceSteps == old(pendingVoiceSteps) - 1
      ensures message == if old(isListening) then VoicePrompt else old(message)
    {
      pendingVoiceSteps := pendingVoiceSteps - 1;
      if isListening {
        isListening := false;
        message := VoicePrompt;
      }
    }
  }
}

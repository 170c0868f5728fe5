/** `handleMessage` and `handlePostback`: from one messaging event to the single
    effect its handler call leaves behind. */
module Handlers {
  import opened Values
  import opened Ascii
  import opened Messenger
  import opened Replies

  const TasksCommand: string := "TASKS"

  /** A text message asks for the task list when it is truthy and upper-cases to "TASKS". */
  predicate IsTasksCommand(text: Option<string>)
  {
    Truthy(text) && ToUpper(text.value) == TasksCommand
  }

  /** The tasks command is "tasks" spelt in any mix of cases, and nothing else. */
  lemma TasksCommandSpellings(t: string)
    ensures IsTasksCommand(Some(t)) <==>
      |t| == 5 && forall i | 0 <= i < 5 :: t[i] == "TASKS"[i] || t[i] == "tasks"[i]
  {
    assert forall i | 0 <= i < 5 :: LowerOf(TasksCommand[i]) == "tasks"[i];
    ToUpperMatches(t, TasksCommand);
  }

  /** Some spellings that are and are not the tasks command. */
  lemma TasksCommandExamples()
    ensures IsTasksCommand(Some("tasks")) && IsTasksCommand(Some("Tasks")) && IsTasksCommand(Some("tAsKs"))
    ensures !IsTasksCommand(Some("task")) && !IsTasksCommand(Some(" tasks")) && !IsTasksCommand(Some(""))
  {
    TasksCommandSpellings("tasks");
    TasksCommandSpellings("Tasks");
    TasksCommandSpellings("tAsKs");
    TasksCommandSpellings("task");
    TasksCommandSpellings(" tasks");
  }

  /** `attachments[0].payload` can be read: the array is non-empty and its first
      element carries a payload object (otherwise reading `.payload.url` throws). */
  predicate HasFirstPayload(attachments: seq<Attachment>)
  {
    |attachments| > 0 && attachments[0].payload.Some?
  }

  /** What `handleMessage(psid, message)` does. Text wins over attachments; the tasks
      command starts a task lookup; other text is echoed; an image gets the
      confirmation template; a message with neither is still sent, as `undefined`;
      an unreadable first attachment rejects the handler's promise before any send. */
  function MessageEffect(psid: string, msg: Message): (e: Effect)
    ensures e.Psid() == psid
    ensures e.LookupTasks? <==> IsTasksCommand(msg.text)
    ensures Truthy(msg.text) && !IsTasksCommand(msg.text) ==>
      e == CallSendApi(psid, Some(TextReply(EchoText(msg.text.value))))
    ensures e.Rejected? <==>
      !Truthy(msg.text) && msg.attachments.Some? && !HasFirstPayload(msg.attachments.value)
    ensures !Truthy(msg.text) && msg.attachments.Some? && HasFirstPayload(msg.attachments.value) ==>
      e == CallSendApi(psid, Some(ImageConfirmation(msg.attachments.value[0].payload.value.url)))
    ensures (e.Send? && e.request.message.None?) <==> !Truthy(msg.text) && msg.attachments.None?
  {
    if Truthy(msg.text) then
      if ToUpper(msg.text.value) == TasksCommand then LookupTasks(psid)
      else CallSendApi(psid, Some(TextReply(EchoText(msg.text.value))))
    else if msg.attachments.Some? then
      if HasFirstPayload(msg.attachments.value) then
        CallSendApi(psid, Some(ImageConfirmation(msg.attachments.value[0].payload.value.url)))
      else Rejected(psid)
    else CallSendApi(psid, None)
  }

  /** `handleMessage`: the reply is assigned branch by branch, then sent. */
  method HandleMessage(psid: string, msg: Message) returns (effect: Effect)
    ensures effect == MessageEffect(psid, msg)
  {
    var response: Option<Reply> := None;
    if Truthy(msg.text) {
      if ToUpper(msg.text.value) == TasksCommand {
        // the reply is the lookup's answer, sent once it arrives (TasksArrived)
        return LookupTasks(psid);
      }
      response := Some(TextReply(EchoText(msg.text.value)));
    } else if msg.attachments.Some? {
      var attachments := msg.attachments.value;
      if |attachments| == 0 || attachments[0].payload.None? {
        return Rejected(psid);
      }
      var attachmentUrl := attachments[0].payload.value.url;
      response := Some(ImageConfirmation(attachmentUrl));
    }
    effect := CallSendApi(psid, response);
  }

  /** The send that follows a task lookup: the service's data, wrapped by `showTasks`,
      goes to the user who asked. */
  function TasksArrived(psid: string, data: Json): (e: Effect)
    ensures e.Send? && e.request.recipientId == psid
    ensures e.request.message.Some? && e.request.message.value.AttachmentReply?
    ensures e.request.message.value.attachment.payload.elements == Verbatim(data)
  {
    CallSendApi(psid, Some(ShowTasks(data)))
  }

  /** A text that spells "tasks" in any mix of cases starts a task lookup for its
      sender, whatever attachments the message carries, and the send that follows
      the lookup carries the task list to that sender instead of an echo. */
  lemma TasksCommandAnswered(psid: string, t: string, atts: Option<seq<Attachment>>, data: Json)
    requires |t| == 5 && forall i | 0 <= i < 5 :: t[i] == "TASKS"[i] || t[i] == "tasks"[i]
    ensures MessageEffect(psid, Message(Some(t), atts)) == LookupTasks(psid)
    ensures TasksArrived(psid, data).request.recipientId == psid
    ensures TasksArrived(psid, data).request.message == Some(ShowTasks(data))
  {
    TasksCommandSpellings(t);
  }

  /** What `handlePostback(psid, postback)` does: always one send, with the fixed
      reply for "yes" and "no" and `undefined` otherwise. */
  function PostbackEffect(psid: string, postback: Postback): (e: Effect)
    ensures e.Send? && e.request.recipientId == psid
    ensures e.request.message.Some? <==> postback.payload == Some(YesAnswer) || postback.payload == Some(NoAnswer)
    ensures postback.payload == Some(YesAnswer) ==> e.request.message == Some(TextReply(ThanksText))
    ensures postback.payload == Some(NoAnswer) ==> e.request.message == Some(TextReply(RetryText))
  {
    CallSendApi(psid, PostbackReply(postback.payload))
  }

  /** `handlePostback`: the reply is assigned by payload, then sent. */
  method HandlePostback(psid: string, postback: Postback) returns (effect: Effect)
    ensures effect == PostbackEffect(psid, postback)
  {
    var response: Option<Reply> := None;
    var payload := postback.payload;
    if payload == Some(YesAnswer) {
      response := Some(TextReply(ThanksText));
    } else if payload == Some(NoAnswer) {
      response := Some(TextReply(RetryText));
    }
    effect := CallSendApi(psid, response);
  }
}

/** The reply literals of the bot and the Send API request body. */
module Replies {
  import opened Values
  import opened Messenger

  const EchoPrefix: string := "You sent the message: \""
  const EchoSuffix: string := "\". Now send me an image!"

  /** The echo for any text that is not the tasks command; the original text
      (not upper-cased) sits between a fixed prefix and a fixed suffix. */
  function EchoText(text: string): (r: string)
    ensures |r| == |EchoPrefix| + |text| + |EchoSuffix|
    ensures r[..|EchoPrefix|] == EchoPrefix
    ensures r[|EchoPrefix|..|EchoPrefix| + |text|] == text
    ensures r[|EchoPrefix| + |text|..] == EchoSuffix
  {
    EchoPrefix + text + EchoSuffix
  }

  /** Reads back the text an echo reply quotes, if `s` is an echo reply. */
  function EchoedText(s: string): (r: Option<string>)
    ensures r.Some? ==> EchoText(r.value) == s
  {
    if |s| >= |EchoPrefix| + |EchoSuffix|
       && s[..|EchoPrefix|] == EchoPrefix
       && s[|s| - |EchoSuffix|..] == EchoSuffix
    then
      var t := s[|EchoPrefix|..|s| - |EchoSuffix|];
      assert s == s[..|EchoPrefix|] + t + s[|s| - |EchoSuffix|..];
      Some(t)
    else None
  }

  /** The echo quotes its text verbatim: reading it back gives the text. */
  lemma EchoRoundTrip(text: string)
    ensures EchoedText(EchoText(text)) == Some(text)
  {
    var s := EchoText(text);
    assert s[|s| - |EchoSuffix|..] == EchoSuffix;
    assert s[|EchoPrefix|..|s| - |EchoSuffix|] == text;
  }

  /** Different texts get different echoes. */
  lemma EchoInjective(a: string, b: string)
    requires EchoText(a) == EchoText(b)
    ensures a == b
  {
    EchoRoundTrip(a);
    EchoRoundTrip(b);
  }

  const YesAnswer: string := "yes"
  const NoAnswer: string := "no"

  /** The confirmation template for a received image: one card showing the
      image, with a "yes" and a "no" postback button. */
  function ImageConfirmation(url: Option<string>): (r: Reply)
    ensures r.AttachmentReply? && r.attachment.kind == "template"
    ensures r.attachment.payload.templateType == "generic"
    ensures r.attachment.payload.elements.Cards?
    ensures |r.attachment.payload.elements.cards| == 1
    ensures r.attachment.payload.elements.cards[0].imageUrl == url
    ensures |r.attachment.payload.elements.cards[0].buttons| == 2
    ensures forall b | b in r.attachment.payload.elements.cards[0].buttons :: b.kind == "postback"
    ensures r.attachment.payload.elements.cards[0].buttons[0].payload == YesAnswer
    ensures r.attachment.payload.elements.cards[0].buttons[1].payload == NoAnswer
  {
    AttachmentReply(AttachmentBody("template", TemplatePayload("generic", Cards([
      Card("Is this the right picture?", "Tap a button to answer.", url, [
        Button("postback", "Yes!", YesAnswer),
        Button("postback", "No!", NoAnswer)
      ])
    ]))))
  }

  const ThanksText: string := "Thanks!"
  const RetryText: string := "Oops, try sending another image."

  /** The fixed answer to a postback payload; `None` (an undefined reply) for
      every payload other than "yes" and "no". */
  function PostbackReply(payload: Option<string>): (r: Option<Reply>)
    ensures r.Some? <==> payload == Some(YesAnswer) || payload == Some(NoAnswer)
    ensures payload == Some(YesAnswer) ==> r == Some(TextReply(ThanksText))
    ensures payload == Some(NoAnswer) ==> r == Some(TextReply(RetryText))
  {
    if payload == Some(YesAnswer) then Some(TextReply(ThanksText))
    else if payload == Some(NoAnswer) then Some(TextReply(RetryText))
    else None
  }

  /** Every button of the image confirmation is one the postback handler answers:
      "yes" with the thanks, "no" with the request for another image. */
  lemma ConfirmationButtonsAnswered(url: Option<string>)
    ensures forall b | b in ImageConfirmation(url).attachment.payload.elements.cards[0].buttons ::
      PostbackReply(Some(b.payload)).Some?
    ensures PostbackReply(Some(ImageConfirmation(url).attachment.payload.elements.cards[0].buttons[0].payload))
      == Some(TextReply(ThanksText))
    ensures PostbackReply(Some(ImageConfirmation(url).attachment.payload.elements.cards[0].buttons[1].payload))
      == Some(TextReply(RetryText))
  {
    var bs := ImageConfirmation(url).attachment.payload.elements.cards[0].buttons;
    assert bs == [bs[0], bs[1]];
  }

  /** The task list reply: the task service's response data placed verbatim as
      the elements of a generic template. */
  function ShowTasks(data: Json): (r: Reply)
    ensures r.AttachmentReply? && r.attachment.kind == "template"
    ensures r.attachment.payload.templateType == "generic"
    ensures r.attachment.payload.elements == Verbatim(data)
  {
    AttachmentReply(AttachmentBody("template", TemplatePayload("generic", Verbatim(data))))
  }

  /** `callSendAPI`: the request body `{recipient: {id: psid}, message: response}`
      handed to the Send API. */
  function CallSendApi(psid: string, response: Option<Reply>): (e: Effect)
    ensures e.Send? && e.Psid() == psid && e.request.message == response
  {
    Send(SendRequest(psid, response))
  }
}

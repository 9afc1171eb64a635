/**
 * What the client hands to its HTTP transport: the endpoints, the token request, the
 * JSON document of a message, and the bearer headers.
 */
module Requests {
  import opened Wrappers
  import opened Php

  // Paths relative to the service's base URL.
  const ServiceOAuthUrl := "oauth/v2/token"
  const ServiceInfoUrl := "api/v1/"
  const ServiceTestUrl := "api/v1/messages/test"
  const ServiceSendUrl := "api/v1/messages/"

  const GrantTypeClientCredentials := "client_credentials"
  const GrantTypeDefault := GrantTypeClientCredentials

  datatype Verb = Get | Post

  datatype Body =
    | NoBody
    | Form(pairs: map<string, string>)  // posted as form fields
    | Json(document: Value)             // posted as the JSON encoding of the document

  datatype Request = Request(verb: Verb, path: string, body: Body, headers: map<string, string>)

  /**
   * The message being built on the client. Each part stays null (None) until its
   * setter first succeeds; expectedSendStart may stay unset for good.
   */
  datatype MessageRequest = MessageRequest(
    recipients: Option<seq<string>>,
    message: Option<string>,
    channel: Option<int>,
    expectedSendStart: Option<string>)

  /** The form fields of the token request. */
  function TokenForm(clientId: string, clientSecret: string, grantType: string): (form: map<string, string>)
    ensures form.Keys == {"client_id", "client_secret", "grant_type"}
    ensures form["client_id"] == clientId && form["client_secret"] == clientSecret
    ensures form["grant_type"] == grantType
  {
    map["client_id" := clientId, "client_secret" := clientSecret, "grant_type" := grantType]
  }

  function OptionalText(s: Option<string>): Value
  {
    if s.Some? then Str(s.value) else Null
  }

  function StringList(texts: seq<string>): (v: Value)
    ensures v.List? && |v.items| == |texts|
    ensures forall j :: 0 <= j < |texts| ==> v.items[j] == Str(texts[j])
  {
    List(seq(|texts|, j requires 0 <= j < |texts| => Str(texts[j])))
  }

  /**
   * The document test and send post: message, recipients and channel always (null when
   * never set), expectedSendStart only once it has been set. The service reads the
   * message back from it unchanged.
   */
  function Payload(m: MessageRequest): (doc: Value)
    ensures doc.Object?
    ensures doc.fields.Keys == {"message", "recipients", "channel"}
                               + (if m.expectedSendStart.Some? then {"expectedSendStart"} else {})
    ensures ReadPayload(doc) == Some(m)
  {
    var recipients := if m.recipients.Some? then StringList(m.recipients.value) else Null;
    var channel := if m.channel.Some? then Int(m.channel.value) else Null;
    var base := map["message" := OptionalText(m.message), "recipients" := recipients, "channel" := channel];
    var doc := if m.expectedSendStart.Some?
      then Object(base["expectedSendStart" := Str(m.expectedSendStart.value)])
      else Object(base);
    assert m.recipients.Some? ==> ReadTexts(recipients.items) == Some(m.recipients.value) by {
      if m.recipients.Some? {
        ReadStringList(m.recipients.value);
      }
    }
    doc
  }

  /** The strings of a list whose every entry is a string, or None. */
  function ReadTexts(items: seq<Value>): Option<seq<string>>
  {
    if items == [] then Some([])
    else if !items[0].Str? then None
    else
      match ReadTexts(items[1..])
      case None => None
      case Some(rest) => Some([items[0].text] + rest)
  }

  lemma {:induction false} ReadStringList(texts: seq<string>)
    ensures ReadTexts(StringList(texts).items) == Some(texts)
  {
    if texts != [] {
      var items := StringList(texts).items;
      ReadStringList(texts[1..]);
      assert items[1..] == StringList(texts[1..]).items;
      assert items[0] == Str(texts[0]);
      assert [texts[0]] + texts[1..] == texts;
    }
  }

  /**
   * How a message document is read: the three required members hold null or a value of
   * their type, and expectedSendStart, when present, holds a string.
   */
  function ReadPayload(doc: Value): Option<MessageRequest>
  {
    if !doc.Object? || !({"message", "recipients", "channel"} <= doc.fields.Keys) then None
    else
      var message := doc.fields["message"];
      var recipients := doc.fields["recipients"];
      var channel := doc.fields["channel"];
      var recipientTexts := if recipients.List? then ReadTexts(recipients.items) else None;
      if !(message.Null? || message.Str?) || !(channel.Null? || channel.Int?)
         || !(recipients.Null? || recipientTexts.Some?) then None
      else if "expectedSendStart" in doc.fields && !doc.fields["expectedSendStart"].Str? then None
      else
        Some(MessageRequest(
          if recipients.Null? then None else recipientTexts,
          if message.Null? then None else Some(message.text),
          if channel.Null? then None else Some(channel.number),
          if "expectedSendStart" in doc.fields then Some(doc.fields["expectedSendStart"].text) else None))
  }

  /** `'Bearer ' . $token`, whatever the token holds. */
  function Bearer(token: Value): (h: string)
    ensures token.Str? ==> h == "Bearer " + token.text
    ensures token.Null? ==> h == "Bearer "
  {
    "Bearer " + ToText(token)
  }

  /** The headers of the JSON calls that carry the token. */
  function TokenHeaders(token: Value): (h: map<string, string>)
    ensures h.Keys == {"Content-Type", "Authorization"}
    ensures h["Content-Type"] == "application/json" && h["Authorization"] == Bearer(token)
  {
    map["Content-Type" := "application/json", "Authorization" := Bearer(token)]
  }

  /** The headers of the account-info call: the token only. */
  function InfoHeaders(token: Value): (h: map<string, string>)
    ensures h.Keys == {"Authorization"} && h["Authorization"] == Bearer(token)
  {
    map["Authorization" := Bearer(token)]
  }
}

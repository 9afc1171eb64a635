/**
 * The client object: credentials, the message under construction, and the bearer
 * token. Setters validate their argument and update one field in place; each call to
 * the service takes the transport's answer as a parameter and returns the request it
 * issues together with the classified result.
 */
module GoSMS {
  import opened Wrappers
  import opened GoSMSException
  import opened Php
  import opened Validation
  import opened Requests
  import opened Responses

  /** The entries of a recipient list that may still be null. */
  function Listed(recipients: Option<seq<string>>): seq<string>
  {
    if recipients.Some? then recipients.value else []
  }

  /**
   * `$this->recipients[] = $x` for each x in turn: a null list becomes an array on the
   * first append, and stays null when nothing is appended.
   */
  function Appended(recipients: Option<seq<string>>, texts: seq<string>): (r: Option<seq<string>>)
    ensures Listed(r) == Listed(recipients) + texts
    ensures r.None? <==> recipients.None? && texts == []
  {
    if texts == [] then recipients else Some(Listed(recipients) + texts)
  }

  /** The message document posts null or a list of recipients that all match the number pattern. */
  predicate PostsValidRecipients(doc: Value)
  {
    && doc.Object? && "recipients" in doc.fields
    && var posted := doc.fields["recipients"];
    || posted.Null?
    || (posted.List? && forall j :: 0 <= j < |posted.items| ==> IsRecipient(posted.items[j]))
  }

  /** A message whose recipients all matched the pattern posts only matching recipients. */
  lemma ValidRecipientsPosted(m: MessageRequest)
    requires forall j :: 0 <= j < |Listed(m.recipients)| ==> IsRecipientNumber(Listed(m.recipients)[j])
    ensures PostsValidRecipients(Payload(m))
  {
    var doc := Payload(m);
    if m.recipients.Some? {
      var posted := StringList(m.recipients.value);
      assert doc.fields["recipients"] == posted;
      forall j | 0 <= j < |posted.items|
        ensures IsRecipient(posted.items[j])
      {
        assert posted.items[j] == Str(Listed(m.recipients)[j]);
      }
    } else {
      assert doc.fields["recipients"] == Null;
    }
  }

  lemma AppendedTwice(recipients: Option<seq<string>>, texts: seq<string>, more: seq<string>)
    ensures Appended(Appended(recipients, texts), more) == Appended(recipients, texts + more)
  {
    assert Listed(recipients) + texts + more == Listed(recipients) + (texts + more);
  }

  class GoSMS {
    var clientId: string
    var clientSecret: string
    var grantType: string

    var recipients: Option<seq<string>>
    var message: Option<string>
    var channel: Option<int>
    var expectedSendStart: Option<string>

    var token: Value

    /** Every stored recipient, message and channel passed its setter's check. */
    ghost predicate Valid()
      reads this
    {
      && (forall j :: 0 <= j < |Listed(recipients)| ==> IsRecipientNumber(Listed(recipients)[j]))
      && (message.Some? ==> IsMessage(Str(message.value)))
      && (channel.Some? ==> channel.value >= 0)
    }

    /** The message as it stands. */
    function Draft(): MessageRequest
      reads this
    {
      MessageRequest(recipients, message, channel, expectedSendStart)
    }

    constructor (clientId: string, clientSecret: string, grantType: Option<string>)
      ensures Valid()
      ensures this.clientId == clientId && this.clientSecret == clientSecret
      ensures this.grantType == if grantType.Some? then grantType.value else GrantTypeDefault
      ensures recipients.None? && message.None? && channel.None? && expectedSendStart.None?
      ensures token.Null?
    {
      this.clientId := clientId;
      this.clientSecret := clientSecret;
      this.grantType := if grantType.Some? then grantType.value else GrantTypeDefault;
      recipients, message, channel, expectedSendStart := None, None, None, None;
      token := Null;
    }

    /**
     * Posts the credentials to the token endpoint. On 200 the token becomes the body's
     * access_token and the client itself is returned; on failure the token is kept.
     */
    method Authenticate(response: HttpResult) returns (request: Request, r: Result<GoSMS, Error>)
      modifies this`token
      ensures request == Request(Post, ServiceOAuthUrl, Form(TokenForm(clientId, clientSecret, grantType)), map[])
      ensures r.Success? <==> response.status == 200
      ensures r.Success? ==> r.value == this && token == Property(response.body, "access_token")
      ensures r.Failure? ==> r.error == AuthOutcome(response).error && token == old(token)
    {
      request := Request(Post, ServiceOAuthUrl, Form(TokenForm(clientId, clientSecret, grantType)), map[]);
      var outcome := AuthOutcome(response);
      if outcome.Failure? {
        return request, Failure(outcome.error);
      }
      token := outcome.value;
      r := Success(this);
    }

    /** Reads the account information with the token. */
    method GetInfo(response: HttpResult) returns (request: Request, r: Result<Value, Error>)
      ensures request == Request(Get, ServiceInfoUrl, NoBody, InfoHeaders(token))
      ensures r == InfoOutcome(response)
    {
      request := Request(Get, ServiceInfoUrl, NoBody, InfoHeaders(token));
      r := InfoOutcome(response);
    }

    /** Posts the message to the test endpoint. */
    method Test(response: HttpResult) returns (request: Request, r: Result<Value, Error>)
      ensures request == Request(Post, ServiceTestUrl, Json(Payload(Draft())), TokenHeaders(token))
      ensures Valid() ==> PostsValidRecipients(request.body.document)
      ensures r == TestOutcome(response)
    {
      request := Request(Post, ServiceTestUrl, Json(Payload(Draft())), TokenHeaders(token));
      if Valid() {
        ValidRecipientsPosted(Draft());
      }
      r := TestOutcome(response);
    }

    /** Posts the message to the send endpoint. */
    method Send(response: HttpResult) returns (request: Request, r: Result<Value, Error>)
      ensures request == Request(Post, ServiceSendUrl, Json(Payload(Draft())), TokenHeaders(token))
      ensures Valid() ==> PostsValidRecipients(request.body.document)
      ensures r == SendOutcome(response)
    {
      request := Request(Post, ServiceSendUrl, Json(Payload(Draft())), TokenHeaders(token));
      if Valid() {
        ValidRecipientsPosted(Draft());
      }
      r := SendOutcome(response);
    }

    /** Reads a sent message at the URL send returned, stripped of its leading slashes. */
    method GetMessageDetail(url: string, response: HttpResult) returns (request: Request, r: Result<Value, Error>)
      ensures request == Request(Get, LTrim(url, '/'), NoBody, TokenHeaders(token))
      ensures r == DetailOutcome(response)
    {
      request := Request(Get, LTrim(url, '/'), NoBody, TokenHeaders(token));
      r := DetailOutcome(response);
    }

    /** Appends a recipient that matches the number pattern; anything else is refused. */
    method SetRecipient(recipient: Value) returns (r: Outcome<Error>)
      requires Valid()
      modifies this`recipients
      ensures Valid()
      ensures r.Pass? <==> IsRecipient(recipient)
      ensures r.Pass? ==> recipients == Appended(old(recipients), [recipient.text])
      ensures r.Fail? ==> r.error == InvalidFormat(BadRecipientText) && recipients == old(recipients)
    {
      if !IsRecipient(recipient) {
        return Fail(InvalidFormat(BadRecipientText));
      }
      recipients := Appended(recipients, [recipient.text]);
      r := Pass;
    }

    /**
     * Appends the recipients of a list one by one. A value that is not a list is
     * refused outright; otherwise the entries before the first invalid one stay
     * appended when that entry is refused.
     */
    method SetRecipients(list: Value) returns (r: Outcome<Error>)
      requires Valid()
      modifies this`recipients
      ensures Valid()
      ensures !list.List? ==> r == Fail(InvalidFormat(RecipientsNotArrayText)) && recipients == old(recipients)
      ensures list.List? ==>
        var k := ValidPrefixLength(list.items);
        && recipients == Appended(old(recipients), Texts(list.items[..k]))
        && (r.Pass? <==> k == |list.items|)
        && (r.Fail? ==> r.error == InvalidFormat(BadRecipientText))
      ensures list.List? && (forall j :: 0 <= j < |list.items| ==> IsRecipient(list.items[j])) ==>
        r.Pass? && recipients == Appended(old(recipients), Texts(list.items))
    {
      if !list.List? {
        return Fail(InvalidFormat(RecipientsNotArrayText));
      }
      var items := list.items;
      var i := 0;
      while i < |items|
        invariant 0 <= i <= |items|
        invariant Valid()
        invariant forall j :: 0 <= j < i ==> IsRecipient(items[j])
        invariant recipients == Appended(old(recipients), Texts(items[..i]))
      {
        r := SetRecipient(items[i]);
        if r.Fail? {
          return;
        }
        AppendedTwice(old(recipients), Texts(items[..i]), [items[i].text]);
        assert items[..i + 1] == items[..i] + [items[i]];
        i := i + 1;
      }
      assert items[..i] == items;
      r := Pass;
    }

    /** Stores a message that is a string PHP does not consider empty ("" and "0" are). */
    method SetMessage(text: Value) returns (r: Outcome<Error>)
      requires Valid()
      modifies this`message
      ensures Valid()
      ensures r.Pass? <==> IsMessage(text)
      ensures r.Pass? ==> message == Some(text.text)
      ensures r.Fail? ==> r.error == InvalidFormat(BadMessageText) && message == old(message)
    {
      if !text.Str? || Empty(text) {
        return Fail(InvalidFormat(BadMessageText));
      }
      message := Some(text.text);
      r := Pass;
    }

    /** Stores a channel that is an integer of at least zero. */
    method SetChannel(number: Value) returns (r: Outcome<Error>)
      requires Valid()
      modifies this`channel
      ensures Valid()
      ensures r.Pass? <==> IsChannel(number)
      ensures r.Pass? ==> channel == Some(number.number)
      ensures r.Fail? ==> r.error == InvalidChannel(BadChannelText) && channel == old(channel)
    {
      if !number.Int? || number.number < 0 {
        return Fail(InvalidChannel(BadChannelText));
      }
      channel := Some(number.number);
      r := Pass;
    }

    /**
     * Stores the scheduled send time: a \DateTime as its format('c') rendering, a
     * string of the time shape as it is.
     */
    method SetExpectedSendTime(time: Value) returns (r: Outcome<Error>)
      modifies this`expectedSendStart
      ensures r.Pass? <==> IsSendTimeValue(time)
      ensures r.Pass? && time.DateTime? ==> expectedSendStart == Some(time.iso)
      ensures r.Pass? && time.Str? ==> expectedSendStart == Some(time.text)
      ensures r.Fail? ==> r.error == InvalidTimeFormat(BadTimeText) && expectedSendStart == old(expectedSendStart)
    {
      if !time.DateTime? && !(time.Str? && IsSendTime(time.text)) {
        return Fail(InvalidTimeFormat(BadTimeText));
      }
      var stored := if time.DateTime? then time.iso else time.text;
      expectedSendStart := Some(stored);
      r := Pass;
    }
  }

  /**
   * A caller's session: build a message, authenticate, then test it. The test request
   * carries the token the service issued and a document that reads back as the message.
   */
  method ExampleSession()
  {
    var client := new GoSMS("id", "secret", None);
    assert IsRecipientNumber("+420123456789");
    var r := client.SetRecipient(Str("+420123456789"));
    assert r.Pass?;
    assert [] + ["+420123456789"] == ["+420123456789"];
    assert client.recipients == Some(["+420123456789"]);
    r := client.SetMessage(Str("hi"));
    r := client.SetChannel(Int(0));
    var draft := client.Draft();
    assert draft == MessageRequest(Some(["+420123456789"]), Some("hi"), Some(0), None);

    var request, auth := client.Authenticate(HttpResult(200, Object(map["access_token" := Str("abc")]), ""));
    assert auth == Success(client) && client.token == Str("abc");

    var body := Object(map["ok" := Bool(true)]);
    var sent, answer := client.Test(HttpResult(200, body, ""));
    assert answer == Success(body);
    assert sent.headers["Authorization"] == "Bearer abc";
    assert ReadPayload(sent.body.document) == Some(draft);
  }
}

/**
 * How the client turns the transport's answer (status code and decoded body) into a
 * result or one of its typed errors, operation by operation.
 */
module Responses {
  import opened Wrappers
  import opened GoSMSException
  import opened Php

  /** What the transport returns: the HTTP status, the json_decode'd body, its error text. */
  datatype HttpResult = HttpResult(status: int, body: Value, transportError: string)

  /**
   * getJSONAPIProblem: the body itself when it sets all four members of a problem
   * document (type, title, status, detail), otherwise nothing.
   */
  function JsonApiProblem(response: Value): (r: Option<Value>)
    ensures r.Some? <==> IsSet(response, "type") && IsSet(response, "title")
                         && IsSet(response, "status") && IsSet(response, "detail")
    ensures r.Some? ==> r.value == response && response.Object?
  {
    if IsSet(response, "type") && IsSet(response, "title") && IsSet(response, "status") && IsSet(response, "detail")
    then Some(response)
    else None
  }

  /** The message of a problem document: its title and detail, separated by a space. */
  function ProblemText(problem: Value): string
  {
    ToText(Property(problem, "title")) + " " + ToText(Property(problem, "detail"))
  }

  /** The error of a failed test, and of a send refused with 400. */
  function ProblemOrAnother(body: Value): (e: Error)
    ensures e.JSONAPIProblem? <==> JsonApiProblem(body).Some?
    ensures e.JSONAPIProblem? ==> e.message == ProblemText(body)
    ensures !e.JSONAPIProblem? ==> e == Another(NotProblemText)
  {
    match JsonApiProblem(body)
    case Some(problem) => JSONAPIProblem(ProblemText(problem))
    case None => Another(NotProblemText)
  }

  /**
   * authenticate: 200 yields the access token, 400 means bad credentials, and any
   * other status fails with the service's error_description or, lacking one, the
   * transport's error.
   */
  function AuthOutcome(h: HttpResult): (r: Result<Value, Error>)
    ensures r.Success? <==> h.status == 200
    ensures r.Success? ==> r.value == Property(h.body, "access_token")
    ensures (r.Failure? && r.error.InvalidCredentials?) <==> h.status == 400
    ensures r.Failure? && r.error.InvalidCredentials? ==> r.error.message == BadCredentialsText
    ensures r.Failure? ==> r.error.InvalidCredentials? || r.error.Another?
    ensures r.Failure? && r.error.Another? && IsSet(h.body, "error_description")
            ==> r.error.message == ToText(Property(h.body, "error_description"))
    ensures r.Failure? && r.error.Another? && !IsSet(h.body, "error_description")
            ==> r.error.message == h.transportError
  {
    if h.status == 400 then Failure(InvalidCredentials(BadCredentialsText))
    else if h.status != 200 then
      Failure(Another(if IsSet(h.body, "error_description")
                      then ToText(Property(h.body, "error_description"))
                      else h.transportError))
    else Success(Property(h.body, "access_token"))
  }

  /** getInfo: 200 yields the body; anything else fails with its error_description. */
  function InfoOutcome(h: HttpResult): (r: Result<Value, Error>)
    ensures r.Success? <==> h.status == 200
    ensures r.Success? ==> r.value == h.body
    ensures r.Failure? ==> r.error.Another? && r.error.message == ToText(Property(h.body, "error_description"))
  {
    if h.status != 200 then Failure(Another(ToText(Property(h.body, "error_description"))))
    else Success(h.body)
  }

  /** test: 200 yields the body; any other status is a problem document or Another. */
  function TestOutcome(h: HttpResult): (r: Result<Value, Error>)
    ensures r.Success? <==> h.status == 200
    ensures r.Success? ==> r.value == h.body
    ensures r.Failure? ==> r.error == ProblemOrAnother(h.body)
  {
    if h.status != 200 then Failure(ProblemOrAnother(h.body)) else Success(h.body)
  }

  /**
   * send: 201 yields the body; 401 means the token expired, 500 a server error, 400 a
   * problem document or Another, and every other status Another("Another error").
   */
  function SendOutcome(h: HttpResult): (r: Result<Value, Error>)
    ensures r.Success? <==> h.status == 201
    ensures r.Success? ==> r.value == h.body
    ensures (r.Failure? && r.error.TokenExpired?) <==> h.status == 401
    ensures (r.Failure? && r.error.ServerError?) <==> h.status == 500
    ensures (r.Failure? && r.error.JSONAPIProblem?) ==> h.status == 400
    ensures h.status == 400 ==> r == Failure(ProblemOrAnother(h.body))
    ensures h.status !in {201, 400, 401, 500} ==> r == Failure(Another(AnotherErrorText))
    ensures r.Failure? && r.error.TokenExpired? ==> r.error.message == TokenExpiredText
    ensures r.Failure? && r.error.ServerError? ==> r.error.message == ServerErrorText
  {
    if h.status != 201 then
      if h.status == 401 then Failure(TokenExpired(TokenExpiredText))
      else if h.status == 400 then Failure(ProblemOrAnother(h.body))
      else if h.status == 500 then Failure(ServerError(ServerErrorText))
      else Failure(Another(AnotherErrorText))
    else Success(h.body)
  }

  /**
   * getMessageDetail: 200 yields the body; 401, 403 and 404 each have their own error,
   * and every other status is Another("Another error").
   */
  function DetailOutcome(h: HttpResult): (r: Result<Value, Error>)
    ensures r.Success? <==> h.status == 200
    ensures r.Success? ==> r.value == h.body
    ensures (r.Failure? && r.error.TokenExpired?) <==> h.status == 401
    ensures (r.Failure? && r.error.AccessDenied?) <==> h.status == 403
    ensures (r.Failure? && r.error.MessageNotFound?) <==> h.status == 404
    ensures h.status !in {200, 401, 403, 404} ==> r == Failure(Another(AnotherErrorText))
    ensures r.Failure? && r.error.TokenExpired? ==> r.error.message == TokenExpiredText
    ensures r.Failure? && r.error.AccessDenied? ==> r.error.message == AccessDeniedText
    ensures r.Failure? && r.error.MessageNotFound? ==> r.error.message == MessageNotFoundText
  {
    if h.status != 200 then
      if h.status == 401 then Failure(TokenExpired(TokenExpiredText))
      else if h.status == 403 then Failure(AccessDenied(AccessDeniedText))
      else if h.status == 404 then Failure(MessageNotFound(MessageNotFoundText))
      else Failure(Another(AnotherErrorText))
    else Success(h.body)
  }

  /** A 400 answer is read the same way by test and by send. */
  lemma TestAndSendAgreeOnBadRequest(h: HttpResult)
    requires h.status == 400
    ensures TestOutcome(h) == SendOutcome(h)
  {
  }

  /** test reports a problem document on every failing status; send only on 400. */
  lemma ProblemStatuses(h: HttpResult)
    requires JsonApiProblem(h.body).Some?
    ensures TestOutcome(h).Failure? ==> TestOutcome(h).error.JSONAPIProblem?
    ensures SendOutcome(h).Failure? && SendOutcome(h).error.JSONAPIProblem? <==> h.status == 400
  {
  }

  /** A problem document with one of its four members missing is no problem document. */
  lemma PartialProblemIsNone(fields: map<string, Value>, missing: string)
    requires missing in {"type", "title", "status", "detail"}
    ensures JsonApiProblem(Object(fields - {missing})).None?
  {
  }

  /** A send refused with a problem document, as the service reports one. */
  lemma SendProblemExample()
    ensures SendOutcome(HttpResult(400, Object(map["type" := Str("x"), "title" := Str("Bad"),
                                                   "status" := Int(400), "detail" := Str("oops")]), ""))
            == Failure(JSONAPIProblem("Bad oops"))
  {
    var body := Object(map["type" := Str("x"), "title" := Str("Bad"),
                            "status" := Int(400), "detail" := Str("oops")]);
    assert JsonApiProblem(body) == Some(body);
    assert ProblemText(body) == "Bad" + " " + "oops";
    assert "Bad" + " " + "oops" == "Bad oops";
    assert SendOutcome(HttpResult(400, body, "")) == Failure(ProblemOrAnother(body));
  }

  /** A test call answered with 200 returns the decoded body unchanged. */
  lemma TestSuccessExample()
    ensures TestOutcome(HttpResult(200, Object(map["ok" := Bool(true)]), ""))
            == Success(Object(map["ok" := Bool(true)]))
  {
  }
}

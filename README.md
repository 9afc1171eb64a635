# GoSMS client, modelled in Dafny

A model of `GoSMS`, the PHP client of the GoSMS SMS gateway. The client builds an
outgoing message (recipients, text, channel, optional scheduled send time) through
validating setters. It obtains a bearer token with the OAuth2 client-credentials flow.
It then posts the message to the test or send endpoint, or reads account and message
details, and turns each HTTP answer into a result or a typed error.

The model keeps the source's two halves apart:

- `gosms.dfy`, module `GoSMS`: the class `GoSMS` with the client's fields. The setters
  update one field in place (``modifies this`recipients`` and so on) and return an
  `Outcome` instead of throwing. `Valid()` is the object invariant that every setter
  keeps: every stored recipient matches the number pattern, the message is a non-empty
  PHP string, and the channel is not negative. Each call to the service takes the
  transport's answer as a parameter. It returns the request it issues (verb, path, body,
  headers) and the classified result. `ExampleSession` is a caller that composes these
  contracts: the token from `Authenticate` is the one carried by the next `Test`.
- `responses.dfy`, module `Responses`: the status-code dispatch of `authenticate`,
  `getInfo`, `test`, `send` and `getMessageDetail`, and the problem-document test
  `getJSONAPIProblem`, as pure functions of `(status, decoded body)`.
- `requests.dfy`, module `Requests`: endpoints, the token form, the bearer headers, and
  the message document. `ReadPayload` reads a message document back, and
  `Payload`'s contract is the round trip `ReadPayload(Payload(m)) == Some(m)`.
- `validation.dfy`, module `Validation`: the two regular expressions, written as
  character-class shapes, and the message, channel and time rules. It also holds
  `ValidPrefixLength`, the number of entries `setRecipients` appends before it stops.
- `php.dfy`, module `Php`: the parts of PHP the client relies on. These are dynamic
  values (`Value`), property reads and `isset` on decoded JSON, `empty`, string
  conversion, `ltrim`, and PCRE's `$` anchor.
- `gosms_exception.dfy`, module `GoSMSException`: one error constructor per exception
  class, with the fixed messages. `wrappers.dfy` holds `Option`, `Result` and `Outcome`.

Behaviour of the code that the model keeps:

- `setMessage` refuses `"0"` as well as `""`, because PHP's `empty("0")` is true.
- The patterns have no `D` modifier. So `$` also matches before one final newline, and
  `"+420123456789\n"` is accepted and stored with its newline (`AcceptsNumberWithFinalNewline`).
  The same holds for the time pattern.
- The time pattern checks only the digit shape, with no calendar or clock ranges (`ChecksShapeOnly`).
- `getMessageDetail` removes every leading `/` from the URL (`ltrim`), not only the first.
- `recipients`, `message` and `channel` start as null (`None`), not as empty values.
  A null recipient list becomes a list on the first append (`Appended`). It stays null
  when `setRecipients` appends nothing, and it is posted as JSON `null`.

## Model

| member | source | states |
|---|---|---|
| `Php.IntToString` | src/GoSMS/GoSMS.php:377 | an integer token converts to a minus sign exactly when negative, followed by digits without leading zeros that denote its absolute value |
| `Php.LTrim` | src/GoSMS/GoSMS.php:254 | the result is a suffix of the URL, everything removed is `/`, and the result does not start with `/` (all leading slashes go) |
| `Validation.ValidPrefixLength` | src/GoSMS/GoSMS.php:304-306 | the entries before the returned position are all valid recipients, and the entry at it, if any, is not |
| `Validation.AcceptsNumber` | src/GoSMS/GoSMS.php:286 | every `+` followed by twelve digits matches the recipient pattern |
| `Validation.AcceptsNumberWithFinalNewline` | src/GoSMS/GoSMS.php:286 | the same number followed by one newline also matches, because `$` has no `D` modifier |
| `Validation.RecipientNumberParts` | src/GoSMS/GoSMS.php:286 | `+`, a maximal digit run and a tail match exactly when the run has twelve digits and the tail is empty or one newline |
| `Validation.AcceptsSendTime` | src/GoSMS/GoSMS.php:345 | `2024-01-02T15:04:05` matches the time pattern |
| `Validation.ChecksShapeOnly` | src/GoSMS/GoSMS.php:345 | `9999-99-99T99:99:99` matches: only the digit shape is checked, with no calendar or clock ranges |
| `Validation.RejectsNonTimes` | src/GoSMS/GoSMS.php:345 | a bare date, a non-date and a time with a timezone suffix do not match |
| `Validation.StopsAtFirstRefused` | src/GoSMS/GoSMS.php:304-306 | with a refused second entry only the first entry is appended, although the third is valid |
| `Requests.TokenForm` | src/GoSMS/GoSMS.php:110-117 | the token request posts exactly `client_id`, `client_secret` and `grant_type` with the client's credentials |
| `Requests.Payload` | src/GoSMS/GoSMS.php:167-175 | the document has message, recipients and channel, and has `expectedSendStart` exactly when it was set; it reads back as the message state |
| `Requests.Bearer` | src/GoSMS/GoSMS.php:377 | the authorization value is `Bearer ` followed by a string token, and just `Bearer ` before any token was obtained |
| `Requests.TokenHeaders` | src/GoSMS/GoSMS.php:373-379 | the JSON calls send exactly a JSON content type and the bearer authorization |
| `Requests.InfoHeaders` | src/GoSMS/GoSMS.php:145-147 | the account-info call sends only the bearer authorization |
| `Responses.JsonApiProblem` | src/GoSMS/GoSMS.php:360-367 | a problem is found exactly when type, title, status and detail are all set, and it is then the body itself |
| `Responses.ProblemOrAnother` | src/GoSMS/GoSMS.php:186-190 | a problem document gives `JSONAPIProblem` with title, space, detail; anything else gives `Another("Error not returned as JSON API Problem")` |
| `Responses.AuthOutcome` | src/GoSMS/GoSMS.php:121-131 | success exactly on 200, yielding `access_token`; `InvalidCredentials` exactly on 400; otherwise `Another` with the set `error_description`, or else the transport error |
| `Responses.InfoOutcome` | src/GoSMS/GoSMS.php:152-156 | success exactly on 200 with the body; otherwise `Another` with the body's `error_description` |
| `Responses.TestOutcome` | src/GoSMS/GoSMS.php:185-193 | success exactly on 200 with the body; every other status is the problem-or-`Another` error |
| `Responses.SendOutcome` | src/GoSMS/GoSMS.php:224-240 | success exactly on 201; `TokenExpired` exactly on 401, `ServerError` exactly on 500; 400 is problem-or-`Another`, and `JSONAPIProblem` arises only then; any other status is `Another("Another error")` |
| `Responses.DetailOutcome` | src/GoSMS/GoSMS.php:264-276 | success exactly on 200; `TokenExpired`, `AccessDenied` and `MessageNotFound` exactly on 401, 403 and 404; any other status is `Another("Another error")` |
| `Responses.TestAndSendAgreeOnBadRequest` | src/GoSMS/GoSMS.php:227-232 | test and send classify a 400 answer identically |
| `Responses.ProblemStatuses` | src/GoSMS/GoSMS.php:185-190 | with a problem body, every failing test reports `JSONAPIProblem`, and send does exactly on 400 |
| `Responses.PartialProblemIsNone` | src/GoSMS/GoSMS.php:362 | a body missing any one of the four members is not a problem document |
| `Responses.SendProblemExample` | src/GoSMS/GoSMS.php:227-229 | a 400 answer with title `Bad` and detail `oops` fails with `JSONAPIProblem("Bad oops")` |
| `Responses.TestSuccessExample` | src/GoSMS/GoSMS.php:185-193 | the example 200 answer with body `{"ok": true}` to test returns that body unchanged |
| `GoSMS.Appended` | src/GoSMS/GoSMS.php:290 | appending keeps the old entries in order and adds the new ones at the end; the list stays null only if it was null and nothing is added |
| `GoSMS.ValidRecipientsPosted` | src/GoSMS/GoSMS.php:167-171 | a message whose recipients all matched the pattern posts null or a list whose every entry matches it |
| `GoSMS.GoSMS.constructor` | src/GoSMS/GoSMS.php:87-91 | keeps the credentials, defaults the grant type to `client_credentials`, and starts with no message state and a null token |
| `GoSMS.GoSMS.Authenticate` | src/GoSMS/GoSMS.php:108-132 | posts the token form; on 200 stores `access_token` as the token and returns the client itself; on failure keeps the token; changes no other field |
| `GoSMS.GoSMS.GetInfo` | src/GoSMS/GoSMS.php:140-157 | reads `api/v1/` with the bearer header and classifies the answer by `InfoOutcome`; changes nothing |
| `GoSMS.GoSMS.Test` | src/GoSMS/GoSMS.php:165-194 | posts the message document with the token headers to the test endpoint and classifies by `TestOutcome`; under `Valid()` every posted recipient matches the pattern; changes nothing |
| `GoSMS.GoSMS.Send` | src/GoSMS/GoSMS.php:204-241 | posts the message document with the token headers to the send endpoint and classifies by `SendOutcome`; under `Valid()` every posted recipient matches the pattern; changes nothing |
| `GoSMS.GoSMS.GetMessageDetail` | src/GoSMS/GoSMS.php:252-277 | reads the URL without its leading slashes with the token headers and classifies by `DetailOutcome`; changes nothing |
| `GoSMS.GoSMS.SetRecipient` | src/GoSMS/GoSMS.php:284-291 | appends the number at the end exactly when it matches the pattern; otherwise fails with `InvalidFormat` and leaves the list; keeps `Valid()` |
| `GoSMS.GoSMS.SetRecipients` | src/GoSMS/GoSMS.php:298-307 | a non-list fails with `InvalidFormat` and changes nothing; a list appends its valid prefix in order, earlier entries staying appended when a later one fails; it succeeds exactly when that prefix is the whole list, and an all-valid list is appended whole |
| `GoSMS.GoSMS.SetMessage` | src/GoSMS/GoSMS.php:314-321 | stores the text exactly when it is a string other than `""` and `"0"`; otherwise fails with `InvalidFormat` and keeps the message |
| `GoSMS.GoSMS.SetChannel` | src/GoSMS/GoSMS.php:328-335 | stores the channel exactly when it is an integer of at least zero; otherwise fails with `InvalidChannel` and keeps the channel |
| `GoSMS.GoSMS.SetExpectedSendTime` | src/GoSMS/GoSMS.php:342-353 | stores a `\DateTime` as its `format('c')` text and a string of the time shape unchanged; anything else fails with `InvalidTimeFormat` and keeps the time |

## Left out

- The HTTP transport (`\RestClient`), the base URL and the creation of the transport in the constructor. Each call takes the transport's status, decoded body and error text as a parameter instead.
- `json_decode` and `json_encode`. Bodies are given already decoded as `Php.Value`. A posted document is a `Php.Value` object, whose members are unordered; the byte encoding and the member order of the JSON text are not modelled.
- `\DateTime::format('c')`. A `\DateTime` argument is represented by the text that call returns.
- The `(string)` casts of the constructor. The credentials are taken as strings.
- PHP floats. `Php.Value` has no float, so JSON numbers with a fraction and float arguments are not modelled.
- `Php.ToText`: objects and `\DateTime` values convert to `""` here. In PHP, converting an object raises an `Error`, and passing an array to an exception constructor raises a `TypeError`.
- `GoSMS.GoSMS.SetRecipient`, `GoSMS.GoSMS.SetRecipients` and `GoSMS.GoSMS.SetExpectedSendTime`: an array or object handed to `preg_match` raises a `TypeError` in PHP 8. The model treats it as a value that does not match.
- The exception class hierarchy (`GoSMSException` as common base class). All errors are one datatype, so catching by the base class is not modelled.
- PHP warnings, such as reading a property that a decoded body lacks. The model yields null there, as PHP does after the warning.

/**
 * The exception classes of the client, one constructor per class. Each carries the
 * message text the client passes to the exception's constructor.
 */
module GoSMSException {

  datatype Error =
    | Another(message: string)
    | InvalidCredentials(message: string)
    | TokenExpired(message: string)
    | ServerError(message: string)
    | AccessDenied(message: string)
    | MessageNotFound(message: string)
    | JSONAPIProblem(message: string)
    | InvalidFormat(message: string)
    | InvalidChannel(message: string)
    // thrown by setExpectedSendTime; the class is not declared beside the others
    | InvalidTimeFormat(message: string)

  // The fixed messages the client throws with.
  const BadCredentialsText := "Bad credentials or grant_type missing"
  const TokenExpiredText := "Token has expired"
  const AccessDeniedText := "Access denied"
  const MessageNotFoundText := "Message not found"
  const ServerErrorText := "Server error"
  const AnotherErrorText := "Another error"
  const NotProblemText := "Error not returned as JSON API Problem"
  const BadRecipientText := "Invalid recipient number format"
  const RecipientsNotArrayText := "Invalid recipients format - array required"
  const BadMessageText := "Invalid message format"
  const BadChannelText := "Invalid channel"
  const BadTimeText := "Invalid time format"
}

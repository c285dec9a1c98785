/** How both handlers turn the outcome of the send into the HTTP reply. */
module Replies {

  /** What awaiting `transporter.sendMail` gives the handler: it resolves, or
      it throws (building the transport, connecting, authenticating or the
      SMTP exchange failed). */
  datatype SendOutcome = Sent | Failed(reason: string)

  /** The JSON body `{success, message}`. */
  datatype ReplyBody = ReplyBody(success: bool, message: string)

  datatype Reply = Reply(status: int, body: ReplyBody)

  const SentText := "Email sent successfully!"
  const FailedText := "Failed to send email"

  /** `res.json(...)` (status 200) after a successful send; in the catch
      block, `res.status(500).json(...)`. */
  function ReplyFor(outcome: SendOutcome): (r: Reply)
    ensures r.status == 200 || r.status == 500
    ensures r.status == 200 <==> outcome.Sent?
    ensures r.body.success <==> r.status == 200
    ensures outcome.Sent? ==> r.body.message == "Email sent successfully!"
    ensures outcome.Failed? ==> r.body.message == "Failed to send email"
  {
    match outcome
    case Sent => Reply(200, ReplyBody(true, SentText))
    case Failed(_) => Reply(500, ReplyBody(false, FailedText))
  }

  /** The reply to a failed send carries nothing of the error. */
  lemma FailureHidesReason(a: string, b: string)
    ensures ReplyFor(Failed(a)) == ReplyFor(Failed(b))
  {
  }
}

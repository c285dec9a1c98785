/** The two POST handlers: build the message, send it once, and answer with
    the reply for the outcome. The transport is a parameter: what sending a
    given message would give. A failure to build the transport itself is one
    of its failed outcomes; the message is then never handed over, but the
    reply is the same. */
module Routes {
  import opened Mail
  import opened Replies
  import QuoteForm
  import ContactForm

  /** What a request does: the message the transport is given (or would be
      given, when building the transport fails first), and the reply it sends
      back. */
  datatype Exchange = Exchange(message: OutboundMessage, reply: Reply)

  /** The part both handlers share: await the send of `m`, then reply. */
  function Deliver(m: OutboundMessage, transport: OutboundMessage -> SendOutcome): (x: Exchange)
    ensures x.message == m
    ensures x.reply.status == 200 <==> transport(m).Sent?
    ensures x.reply.status != 200 ==> x.reply.status == 500 && !x.reply.body.success
    ensures transport(m).Sent? ==> x.reply.body == ReplyBody(true, "Email sent successfully!")
    ensures transport(m).Failed? ==> x.reply.body == ReplyBody(false, "Failed to send email")
  {
    Exchange(m, ReplyFor(transport(m)))
  }

  /** `POST /api/quote`: the quote mail, addressed to the company with the
      requester as reply-to, is sent, and the reply follows its outcome. */
  function QuoteRoute(cfg: Config, req: QuoteForm.QuoteRequest, year: int,
                      transport: OutboundMessage -> SendOutcome): (x: Exchange)
    ensures x.message.from == cfg.companyEmail && x.message.to == cfg.companyEmail
    ensures x.message.replyTo == req.email
    ensures x.message.subject == QuoteForm.QuoteSubject(req.company, req.email)
    ensures x.message.html == QuoteForm.QuoteHtml(QuoteForm.QuoteLayout, cfg, req, year)
    ensures req.files.None? ==> x.message.attachments == []
    ensures req.files.Some? ==> |x.message.attachments| == |req.files.value|
    ensures req.files.Some? ==>
              forall i | 0 <= i < |req.files.value| ::
                x.message.attachments[i] == Attachment(req.files.value[i].originalname, req.files.value[i].buffer)
    ensures transport(x.message).Sent? <==>
              x.reply == Reply(200, ReplyBody(true, "Email sent successfully!"))
    ensures transport(x.message).Failed? <==>
              x.reply == Reply(500, ReplyBody(false, "Failed to send email"))
  {
    Deliver(QuoteForm.QuoteMessage(QuoteForm.QuoteLayout, cfg, req, year), transport)
  }

  /** `POST /api/send-email`: the contact mail, addressed to the company with
      the sender as reply-to and no attachments, is sent, and the reply
      follows its outcome. */
  function ContactRoute(cfg: Config, req: ContactForm.ContactRequest, year: int,
                        transport: OutboundMessage -> SendOutcome): (x: Exchange)
    ensures x.message.from == cfg.companyEmail && x.message.to == cfg.companyEmail
    ensures x.message.replyTo == req.email
    ensures x.message.subject == "New Contact Message from Website"
    ensures x.message.html == ContactForm.ContactHtml(ContactForm.ContactLayout, cfg, req, year)
    ensures x.message.attachments == []
    ensures transport(x.message).Sent? <==>
              x.reply == Reply(200, ReplyBody(true, "Email sent successfully!"))
    ensures transport(x.message).Failed? <==>
              x.reply == Reply(500, ReplyBody(false, "Failed to send email"))
  {
    Deliver(ContactForm.ContactMessage(ContactForm.ContactLayout, cfg, req, year), transport)
  }

  /** With a transport that always delivers, every message is answered with
      200 and the success body, whatever it carries; with one that always
      fails, with 500 and the failure body. */
  lemma RepliesFollowTransport(m: OutboundMessage, transport: OutboundMessage -> SendOutcome)
    ensures (forall n :: transport(n).Sent?) ==>
              Deliver(m, transport).reply == Reply(200, ReplyBody(true, "Email sent successfully!"))
    ensures (forall n :: transport(n).Failed?) ==>
              Deliver(m, transport).reply == Reply(500, ReplyBody(false, "Failed to send email"))
  {
  }
}

/** The `/api/send-email` message builder: the mail sent for a contact
    message. Its three fields are interpolated as they are: no fallback for
    a missing field and no HTML escaping. */
module ContactForm {
  import opened Wrappers
  import opened JsText
  import opened TemplateLiteral
  import opened Mail
  import opened Markup

  /** The fields of the JSON request body. */
  datatype ContactRequest = ContactRequest(
    name: Option<string>,
    email: Option<string>,
    message: Option<string>)

  /** The three fields shown as rows of the contact table, top to bottom. */
  datatype Field = Name | Email | Message

  function Label(f: Field): string {
    match f
    case Name => "Name"
    case Email => "Email"
    case Message => "Message"
  }

  function FieldValue(req: ContactRequest, f: Field): Option<string> {
    match f
    case Name => req.name
    case Email => req.email
    case Message => req.message
  }

  /** Index of a field's substitution in the template (substitution 0 is the
      header's company name). */
  function Row(f: Field): nat {
    match f
    case Name => 1
    case Email => 2
    case Message => 3
  }

  const ContactSubject := "New Contact Message from Website"

  const TitleClose := " Contact Form</h2>"
  const CellClose := "</td>"
  const RowGap := "\n              </tr>\n              <tr>\n                "

  /** The label cell of a row and the opening of its value cell. */
  function CellOpen(caption: string): string {
    "<td style=\"font-weight: bold;\">" + caption + ":</td>\n                <td>"
  }

  /** The styling text of the contact template as the handler has it. */
  const ContactLayout := Layout(
    "\n        <div style=\"font-family: Arial, sans-serif; max-width: 600px; margin: auto; border: 1px solid #ddd; border-radius: 8px; overflow: hidden;\">\n          <!-- Header -->\n          <div style=\"background-color: #003366; padding: 20px; text-align: center;\">\n            ",
    "\n          </div>\n\n          <!-- Message Content -->\n          <div style=\"padding: 20px; background-color: #ffffff;\">\n            <h3 style=\"color: #003366; margin-top: 0;\">\U{1F4E9} You've received a new message</h3>\n            <table cellpadding=\"5\" cellspacing=\"0\" style=\"width: 100%; border-collapse: collapse;\">\n              <tr>\n                ",
    "\n              </tr>\n            </table>\n            <p style=\"margin-top: 20px; font-size: 14px; color: #333;\">\n              Please respond as soon as possible.\n            </p>\n          </div>\n\n          <!-- Footer -->\n          <div style=\"background-color: #f5f5f5; padding: 15px; text-align: center;\">\n            <p style=\"font-size: 12px; color: #888;\">",
    "\n            <p style=\"font-size: 11px; color: #aaa;\">This message was generated from the contact form on your website.</p>\n          </div>\n        </div>\n      ")

  /** The literal chunks of the contact template, between its six substitutions. */
  function ContactChunks(layout: Layout): (c: seq<string>)
    ensures |c| == 7
  {
    [ layout.lead + HeadingOpen,
      TitleClose + layout.intro + CellOpen("Name"),
      CellClose + RowGap + CellOpen("Email"),
      CellClose + RowGap + CellOpen("Message"),
      CellClose + layout.outro + Copyright,
      " ",
      RightsReserved + layout.trailer ]
  }

  /** The values of the six substitutions, in template order. */
  function ContactValues(cfg: Config, req: ContactRequest, year: int): seq<string> {
    [ Show(cfg.companyName),
      Show(req.name),
      Show(req.email),
      Show(req.message),
      NumberToString(year),
      Show(cfg.companyName) ]
  }

  /** The contact template literal, evaluated. */
  function ContactHtml(layout: Layout, cfg: Config, req: ContactRequest, year: int): string {
    Interpolate(ContactChunks(layout), ContactValues(cfg, req, year))
  }

  /** The `mailOptions` of the contact handler, for the handler's layout
      ContactLayout. The source sets no `attachments` key; that is the
      empty list here. */
  function ContactMessage(layout: Layout, cfg: Config, req: ContactRequest, year: int): (m: OutboundMessage)
    ensures m.from == cfg.companyEmail && m.to == cfg.companyEmail
    ensures m.replyTo == req.email
    ensures m.subject == "New Contact Message from Website"
    ensures m.attachments == []
    ensures m.html == ContactHtml(layout, cfg, req, year)
  {
    OutboundMessage(
      from := cfg.companyEmail,
      replyTo := req.email,
      to := cfg.companyEmail,
      subject := ContactSubject,
      html := ContactHtml(layout, cfg, req, year),
      attachments := [])
  }

  /** Where the row of field `f` begins in the contact HTML (at its label cell). */
  function CellStart(layout: Layout, cfg: Config, req: ContactRequest, year: int, f: Field): int {
    Offset(ContactChunks(layout), ContactValues(cfg, req, year), Row(f)) - |CellOpen(Label(f))|
  }

  /** In the template, the chunk before a field's substitution ends with the
      field's label cell and the opening of its value cell, and the chunk
      after it begins with the value cell's close. */
  lemma CellChunks(layout: Layout, f: Field)
    ensures EndsWith(ContactChunks(layout)[Row(f)], CellOpen(Label(f)))
    ensures CellClose <= ContactChunks(layout)[Row(f) + 1]
  {
    match f
    case Name =>
      EndsWithJoin(TitleClose + layout.intro, CellOpen("Name"));
      StartsWithJoin(CellClose, RowGap, CellOpen("Email"), "");
    case Email =>
      EndsWithJoin(CellClose + RowGap, CellOpen("Email"));
      StartsWithJoin(CellClose, RowGap, CellOpen("Message"), "");
    case Message =>
      EndsWithJoin(CellClose + RowGap, CellOpen("Message"));
      StartsWithJoin(CellClose, layout.outro, Copyright, "");
  }

  lemma CellInTemplate(layout: Layout, values: seq<string>, f: Field)
    requires |values| == 6
    ensures Offset(ContactChunks(layout), values, Row(f)) >= |CellOpen(Label(f))|
    ensures OccursAt(Interpolate(ContactChunks(layout), values),
                     Offset(ContactChunks(layout), values, Row(f)) - |CellOpen(Label(f))|,
                     CellOpen(Label(f)) + values[Row(f)] + CellClose)
  {
    CellChunks(layout, f);
    Framed(ContactChunks(layout), values, Row(f), CellOpen(Label(f)), CellClose);
  }

  /** A field is inserted exactly as the caller sent it, and a missing field
      as the text "undefined". */
  lemma InsertedValue(cfg: Config, req: ContactRequest, year: int, f: Field)
    ensures var v := FieldValue(req, f);
            ContactValues(cfg, req, year)[Row(f)] == (if v.Some? then v.value else "undefined")
  {
  }

  /** Each field sits in its own labelled row, inserted verbatim. */
  lemma ContactFieldRow(layout: Layout, cfg: Config, req: ContactRequest, year: int, f: Field)
    ensures var v := FieldValue(req, f);
            OccursAt(ContactHtml(layout, cfg, req, year), CellStart(layout, cfg, req, year, f),
                     CellOpen(Label(f)) + (if v.Some? then v.value else "undefined") + CellClose)
  {
    var values := ContactValues(cfg, req, year);
    CellInTemplate(layout, values, f);
    var v := FieldValue(req, f);
    var shown := if v.Some? then v.value else "undefined";
    InsertedValue(cfg, req, year, f);
    assert CellOpen(Label(f)) + values[Row(f)] + CellClose == CellOpen(Label(f)) + shown + CellClose;
  }

  /** Whatever string the caller sends, markup included, appears in the HTML
      unchanged, right after its row's label cell. */
  lemma ContactInputVerbatim(layout: Layout, cfg: Config, req: ContactRequest, year: int, f: Field, s: string)
    requires FieldValue(req, f) == Some(s)
    ensures OccursAt(ContactHtml(layout, cfg, req, year),
                     CellStart(layout, cfg, req, year, f) + |CellOpen(Label(f))|, s)
  {
    ContactFieldRow(layout, cfg, req, year, f);
    Inner(ContactHtml(layout, cfg, req, year), CellStart(layout, cfg, req, year, f),
          CellOpen(Label(f)), s, CellClose);
  }

  lemma AdjacentCells(layout: Layout, f: Field, g: Field)
    requires Row(g) == Row(f) + 1
    ensures CellClose <= ContactChunks(layout)[Row(g)]
    ensures EndsWith(ContactChunks(layout)[Row(g)], CellOpen(Label(g)))
    ensures |ContactChunks(layout)[Row(g)]| >= |CellClose| + |CellOpen(Label(g))|
  {
    CellChunks(layout, f);
    CellChunks(layout, g);
  }

  lemma CellsInOrderInTemplate(layout: Layout, values: seq<string>, f: Field, g: Field)
    requires |values| == 6 && Row(f) < Row(g)
    ensures Offset(ContactChunks(layout), values, Row(f)) + |values[Row(f)]| + |CellClose|
            <= Offset(ContactChunks(layout), values, Row(g)) - |CellOpen(Label(g))|
  {
    var chunks := ContactChunks(layout);
    if Row(g) == Row(f) + 1 {
      SubstitutionsInOrder(chunks, values, Row(f), Row(g));
      AdjacentCells(layout, f, g);
    } else {
      SubstitutionsApart(chunks, values, Row(f), Row(g));
      CellChunks(layout, f);
      CellChunks(layout, g);
    }
  }

  /** The rows come in the order Name, Email, Message and do not overlap. */
  lemma ContactRowsInOrder(layout: Layout, cfg: Config, req: ContactRequest, year: int, f: Field, g: Field)
    requires Row(f) < Row(g)
    ensures CellStart(layout, cfg, req, year, f) + |CellOpen(Label(f))| + |Show(FieldValue(req, f))|
            + |CellClose| <= CellStart(layout, cfg, req, year, g)
  {
    var values := ContactValues(cfg, req, year);
    CellsInOrderInTemplate(layout, values, f, g);
    CellInTemplate(layout, values, f);
    InsertedValue(cfg, req, year, f);
  }

  /** The header is the configured company name followed by " Contact Form". */
  lemma ContactHeader(layout: Layout, cfg: Config, req: ContactRequest, year: int)
    ensures OccursAt(ContactHtml(layout, cfg, req, year),
                     |layout.lead|,
                     HeadingOpen + (if cfg.companyName.Some? then cfg.companyName.value else "undefined")
                     + TitleClose)
  {
    var values := ContactValues(cfg, req, year);
    EndsWithJoin(layout.lead, HeadingOpen);
    StartsWithJoin(TitleClose, layout.intro, CellOpen("Name"), "");
    Framed(ContactChunks(layout), values, 0, HeadingOpen, TitleClose);
    assert Offset(ContactChunks(layout), values, 0) == |layout.lead + HeadingOpen|;
  }

  /** Where the footer's copyright line begins in the contact HTML. */
  function FooterStart(layout: Layout, cfg: Config, req: ContactRequest, year: int): int {
    Offset(ContactChunks(layout), ContactValues(cfg, req, year), 4) - |Copyright|
  }

  /** In the template, the chunk before the year ends with the copyright
      sign, a single space separates the year from the company name, and the
      rest of the line and the trailer follow the name. */
  lemma FooterChunks(layout: Layout)
    ensures EndsWith(ContactChunks(layout)[4], Copyright)
    ensures ContactChunks(layout)[5] == " "
    ensures ContactChunks(layout)[6] == RightsReserved + layout.trailer
  {
    EndsWithJoin(CellClose + layout.outro, Copyright);
  }

  /** The HTML ends with the footer line "&copy; <year> <company name>. All
      rights reserved." and the closing markup, and that line begins after
      the three rows. */
  lemma ContactFooter(layout: Layout, cfg: Config, req: ContactRequest, year: int)
    ensures var name := if cfg.companyName.Some? then cfg.companyName.value else "undefined";
            var line := Copyright + NumberToString(year) + " " + name + RightsReserved;
            EndsWith(ContactHtml(layout, cfg, req, year), line + layout.trailer) &&
            FooterStart(layout, cfg, req, year) + |line + layout.trailer| == |ContactHtml(layout, cfg, req, year)|
    ensures CellStart(layout, cfg, req, year, Message) + |CellOpen(Label(Message))|
            + |Show(req.message)| + |CellClose| <= FooterStart(layout, cfg, req, year)
  {
    FooterLine(layout, cfg, req, year);
    FooterAfterRows(layout, cfg, req, year);
  }

  lemma FooterLine(layout: Layout, cfg: Config, req: ContactRequest, year: int)
    ensures var tail := Copyright + NumberToString(year) + " " + Show(cfg.companyName) + RightsReserved
                        + layout.trailer;
            EndsWith(ContactHtml(layout, cfg, req, year), tail) &&
            FooterStart(layout, cfg, req, year) + |tail| == |ContactHtml(layout, cfg, req, year)|
  {
    var values := ContactValues(cfg, req, year);
    FooterChunks(layout);
    Closing(ContactChunks(layout), values, Copyright);
    Regroup(Copyright, values[4], " ", values[5], RightsReserved, layout.trailer);
  }

  /** The footer line begins after the Message row has closed. */
  lemma FooterAfterRows(layout: Layout, cfg: Config, req: ContactRequest, year: int)
    ensures CellStart(layout, cfg, req, year, Message) + |CellOpen(Label(Message))|
            + |Show(req.message)| + |CellClose| <= FooterStart(layout, cfg, req, year)
  {
    var values := ContactValues(cfg, req, year);
    assert values[3] == Show(req.message);
    SubstitutionsInOrder(ContactChunks(layout), values, 3, 4);
  }
}

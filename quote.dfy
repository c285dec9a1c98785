/** The `/api/quote` message builder: subject, HTML body, addressing and
    attachments of the mail sent for a quote request. */
module QuoteForm {
  import opened Wrappers
  import opened JsText
  import opened TemplateLiteral
  import opened Mail
  import opened Markup

  /** The multipart body fields and the uploaded files (`req.files`, absent
      when the request was not parsed as multipart). */
  datatype QuoteRequest = QuoteRequest(
    company: Option<string>,
    email: Option<string>,
    project: Option<string>,
    quantity: Option<string>,
    deadline: Option<string>,
    files: Option<seq<UploadedFile>>)

  /** The five fields shown as rows of the quote table, top to bottom. */
  datatype Field = Company | Email | Project | Quantity | Deadline

  function Label(f: Field): string {
    match f
    case Company => "Company"
    case Email => "Email"
    case Project => "Project"
    case Quantity => "Quantity"
    case Deadline => "Deadline"
  }

  function FieldValue(req: QuoteRequest, f: Field): Option<string> {
    match f
    case Company => req.company
    case Email => req.email
    case Project => req.project
    case Quantity => req.quantity
    case Deadline => req.deadline
  }

  /** Position of a field's row in the table, which is also the index of its
      substitution in the template (substitution 0 is the header's company name). */
  function Row(f: Field): nat {
    match f
    case Company => 1
    case Email => 2
    case Project => 3
    case Quantity => 4
    case Deadline => 5
  }

  const Placeholder := "N/A"

  const RowBreak := "\n              "
  const RowClose := "</td></tr>"

  /** The opening of a table row up to where the field's value goes. */
  function RowOpen(caption: string): string {
    "<tr><td style=\"font-weight: bold;\">" + caption + ":</td><td>"
  }

  /** The styling text of the quote template as the handler has it. */
  const QuoteLayout := Layout(
    "\n        <div style=\"font-family: Arial, sans-serif; max-width: 600px; margin: auto; border: 1px solid #ddd; border-radius: 8px; overflow: hidden;\">\n          <div style=\"background-color: #003366; padding: 20px; text-align: center;\">\n            ",
    "\n          </div>\n          <div style=\"padding: 20px; background-color: #ffffff;\">\n            <h3 style=\"color: #003366; margin-top: 0;\">\U{1F4E9} New Quote Request</h3>\n            <table cellpadding=\"5\" cellspacing=\"0\" style=\"width: 100%; border-collapse: collapse;\">",
    "\n            </table>\n            <p style=\"margin-top: 20px; font-size: 14px; color: #333;\">\n              Please find attached any files related to this quote request.\n            </p>\n          </div>\n          <div style=\"background-color: #f5f5f5; padding: 15px; text-align: center;\">\n            <p style=\"font-size: 12px; color: #888;\">",
    "\n            <p style=\"font-size: 11px; color: #aaa;\">This message was generated from the quote form on your website.</p>\n          </div>\n        </div>\n      ")

  /** The literal chunks of the quote template, between its eight substitutions. */
  function QuoteChunks(layout: Layout): (c: seq<string>)
    ensures |c| == 9
  {
    [ layout.lead + HeadingOpen,
      HeadingClose + layout.intro + RowBreak + RowOpen("Company"),
      RowClose + RowBreak + RowOpen("Email"),
      RowClose + RowBreak + RowOpen("Project"),
      RowClose + RowBreak + RowOpen("Quantity"),
      RowClose + RowBreak + RowOpen("Deadline"),
      RowClose + layout.outro + Copyright,
      " ",
      RightsReserved + layout.trailer ]
  }

  /** The values of the eight substitutions, in template order. */
  function QuoteValues(cfg: Config, req: QuoteRequest, year: int): seq<string> {
    [ Show(cfg.companyName),
      OrElse(req.company, Placeholder),
      OrElse(req.email, Placeholder),
      OrElse(req.project, Placeholder),
      OrElse(req.quantity, Placeholder),
      OrElse(req.deadline, Placeholder),
      NumberToString(year),
      Show(cfg.companyName) ]
  }

  /** The quote template literal, evaluated. */
  function QuoteHtml(layout: Layout, cfg: Config, req: QuoteRequest, year: int): string {
    Interpolate(QuoteChunks(layout), QuoteValues(cfg, req, year))
  }

  /** `Quote Request from ${company || email || "Unknown"}`. */
  function QuoteSubject(company: Option<string>, email: Option<string>): (r: string)
    ensures Truthy(company) ==> r == "Quote Request from " + company.value
    ensures !Truthy(company) && Truthy(email) ==> r == "Quote Request from " + email.value
    ensures !Truthy(company) && !Truthy(email) ==> r == "Quote Request from Unknown"
  {
    "Quote Request from " + OrElse(Or(company, email), "Unknown")
  }

  /** The `mailOptions` of the quote handler, for the handler's layout QuoteLayout. */
  function QuoteMessage(layout: Layout, cfg: Config, req: QuoteRequest, year: int): (m: OutboundMessage)
    ensures m.from == cfg.companyEmail && m.to == cfg.companyEmail
    ensures m.replyTo == req.email
    ensures m.subject == QuoteSubject(req.company, req.email)
    ensures m.html == QuoteHtml(layout, cfg, req, year)
    ensures req.files.None? ==> m.attachments == []
    ensures req.files.Some? ==> |m.attachments| == |req.files.value|
    ensures req.files.Some? ==>
              forall i | 0 <= i < |req.files.value| ::
                m.attachments[i] == Attachment(req.files.value[i].originalname, req.files.value[i].buffer)
  {
    OutboundMessage(
      from := cfg.companyEmail,
      replyTo := req.email,
      to := cfg.companyEmail,
      subject := QuoteSubject(req.company, req.email),
      html := QuoteHtml(layout, cfg, req, year),
      attachments := Attachments(FilesOrEmpty(req.files)))
  }

  /** Where the row of field `f` begins in the quote HTML. */
  function RowStart(layout: Layout, cfg: Config, req: QuoteRequest, year: int, f: Field): int {
    Offset(QuoteChunks(layout), QuoteValues(cfg, req, year), Row(f)) - |RowOpen(Label(f))|
  }

  /** In the template, the chunk before a field's substitution ends with the
      opening of its labelled row, and the chunk after it begins with the
      row's close. */
  lemma RowChunks(layout: Layout, f: Field)
    ensures EndsWith(QuoteChunks(layout)[Row(f)], RowOpen(Label(f)))
    ensures RowClose <= QuoteChunks(layout)[Row(f) + 1]
  {
    var more := RowClose + RowBreak;
    match f
    case Company =>
      EndsWithJoin(HeadingClose + layout.intro + RowBreak, RowOpen("Company"));
      StartsWithJoin(RowClose, RowBreak, RowOpen("Email"), "");
    case Email =>
      EndsWithJoin(more, RowOpen("Email"));
      StartsWithJoin(RowClose, RowBreak, RowOpen("Project"), "");
    case Project =>
      EndsWithJoin(more, RowOpen("Project"));
      StartsWithJoin(RowClose, RowBreak, RowOpen("Quantity"), "");
    case Quantity =>
      EndsWithJoin(more, RowOpen("Quantity"));
      StartsWithJoin(RowClose, RowBreak, RowOpen("Deadline"), "");
    case Deadline =>
      EndsWithJoin(more, RowOpen("Deadline"));
      StartsWithJoin(RowClose, layout.outro, Copyright, "");
  }

  /** Each field has its own labelled row holding the field's value when it is
      a non-empty string and "N/A" otherwise. */
  lemma QuoteFieldRow(layout: Layout, cfg: Config, req: QuoteRequest, year: int, f: Field)
    ensures var v := FieldValue(req, f);
            OccursAt(QuoteHtml(layout, cfg, req, year), RowStart(layout, cfg, req, year, f),
                     RowOpen(Label(f)) + (if v.Some? && v.value != "" then v.value else "N/A") + RowClose)
  {
    var values := QuoteValues(cfg, req, year);
    RowInTemplate(layout, values, f);
    var v := FieldValue(req, f);
    var shown := if v.Some? && v.value != "" then v.value else "N/A";
    DisplayedValue(cfg, req, year, f);
    assert RowOpen(Label(f)) + values[Row(f)] + RowClose == RowOpen(Label(f)) + shown + RowClose;
  }

  /** The table shows a field as its value when it is a non-empty string and
      as "N/A" otherwise. */
  lemma DisplayedValue(cfg: Config, req: QuoteRequest, year: int, f: Field)
    ensures var v := FieldValue(req, f);
            QuoteValues(cfg, req, year)[Row(f)] == (if v.Some? && v.value != "" then v.value else "N/A")
  {
  }

  lemma RowInTemplate(layout: Layout, values: seq<string>, f: Field)
    requires |values| == 8
    ensures Offset(QuoteChunks(layout), values, Row(f)) >= |RowOpen(Label(f))|
    ensures OccursAt(Interpolate(QuoteChunks(layout), values),
                     Offset(QuoteChunks(layout), values, Row(f)) - |RowOpen(Label(f))|,
                     RowOpen(Label(f)) + values[Row(f)] + RowClose)
  {
    RowChunks(layout, f);
    Framed(QuoteChunks(layout), values, Row(f), RowOpen(Label(f)), RowClose);
  }

  /** The chunk between two adjacent rows holds the close of the first and
      the opening of the second. */
  lemma AdjacentRows(layout: Layout, f: Field, g: Field)
    requires Row(g) == Row(f) + 1
    ensures RowClose <= QuoteChunks(layout)[Row(g)]
    ensures EndsWith(QuoteChunks(layout)[Row(g)], RowOpen(Label(g)))
    ensures |QuoteChunks(layout)[Row(g)]| >= |RowClose| + |RowOpen(Label(g))|
  {
    RowChunks(layout, f);
    RowChunks(layout, g);
  }

  lemma RowsInOrderInTemplate(layout: Layout, values: seq<string>, f: Field, g: Field)
    requires |values| == 8 && Row(f) < Row(g)
    ensures Offset(QuoteChunks(layout), values, Row(f)) + |values[Row(f)]| + |RowClose|
            <= Offset(QuoteChunks(layout), values, Row(g)) - |RowOpen(Label(g))|
  {
    var chunks := QuoteChunks(layout);
    if Row(g) == Row(f) + 1 {
      SubstitutionsInOrder(chunks, values, Row(f), Row(g));
      AdjacentRows(layout, f, g);
    } else {
      SubstitutionsApart(chunks, values, Row(f), Row(g));
      RowChunks(layout, f);
      RowChunks(layout, g);
    }
  }

  /** The five rows come in the order Company, Email, Project, Quantity,
      Deadline, and do not overlap. */
  lemma QuoteRowsInOrder(layout: Layout, cfg: Config, req: QuoteRequest, year: int, f: Field, g: Field)
    requires Row(f) < Row(g)
    ensures RowStart(layout, cfg, req, year, f) + |RowOpen(Label(f))| + |OrElse(FieldValue(req, f), Placeholder)|
            + |RowClose| <= RowStart(layout, cfg, req, year, g)
  {
    var values := QuoteValues(cfg, req, year);
    RowsInOrderInTemplate(layout, values, f, g);
    RowInTemplate(layout, values, f);
    DisplayedValue(cfg, req, year, f);
  }

  /** The header carries the configured company name ("undefined" when the
      setting is missing). */
  lemma QuoteHeader(layout: Layout, cfg: Config, req: QuoteRequest, year: int)
    ensures OccursAt(QuoteHtml(layout, cfg, req, year),
                     |layout.lead|,
                     HeadingOpen + (if cfg.companyName.Some? then cfg.companyName.value else "undefined")
                     + HeadingClose)
  {
    var values := QuoteValues(cfg, req, year);
    EndsWithJoin(layout.lead, HeadingOpen);
    StartsWithJoin(HeadingClose, layout.intro, RowBreak, RowOpen("Company"));
    Framed(QuoteChunks(layout), values, 0, HeadingOpen, HeadingClose);
    assert Offset(QuoteChunks(layout), values, 0) == |layout.lead + HeadingOpen|;
  }

  /** Where the footer's copyright line begins in the quote HTML. */
  function FooterStart(layout: Layout, cfg: Config, req: QuoteRequest, year: int): int {
    Offset(QuoteChunks(layout), QuoteValues(cfg, req, year), 6) - |Copyright|
  }

  /** In the template, the chunk before the year ends with the copyright
      sign, a single space separates the year from the company name, and the
      rest of the line and the trailer follow the name. */
  lemma FooterChunks(layout: Layout)
    ensures EndsWith(QuoteChunks(layout)[6], Copyright)
    ensures QuoteChunks(layout)[7] == " "
    ensures QuoteChunks(layout)[8] == RightsReserved + layout.trailer
  {
    EndsWithJoin(RowClose + layout.outro, Copyright);
  }

  /** The HTML ends with the footer line "&copy; <year> <company name>. All
      rights reserved." and the closing markup, and that line begins after
      the five rows. */
  lemma QuoteFooter(layout: Layout, cfg: Config, req: QuoteRequest, year: int)
    ensures var name := if cfg.companyName.Some? then cfg.companyName.value else "undefined";
            var line := Copyright + NumberToString(year) + " " + name + RightsReserved;
            EndsWith(QuoteHtml(layout, cfg, req, year), line + layout.trailer) &&
            FooterStart(layout, cfg, req, year) + |line + layout.trailer| == |QuoteHtml(layout, cfg, req, year)|
    ensures RowStart(layout, cfg, req, year, Deadline) + |RowOpen(Label(Deadline))|
            + |OrElse(req.deadline, Placeholder)| + |RowClose| <= FooterStart(layout, cfg, req, year)
  {
    FooterLine(layout, cfg, req, year);
    FooterAfterRows(layout, cfg, req, year);
  }

  lemma FooterLine(layout: Layout, cfg: Config, req: QuoteRequest, year: int)
    ensures var tail := Copyright + NumberToString(year) + " " + Show(cfg.companyName) + RightsReserved
                        + layout.trailer;
            EndsWith(QuoteHtml(layout, cfg, req, year), tail) &&
            FooterStart(layout, cfg, req, year) + |tail| == |QuoteHtml(layout, cfg, req, year)|
  {
    var values := QuoteValues(cfg, req, year);
    FooterChunks(layout);
    Closing(QuoteChunks(layout), values, Copyright);
    Regroup(Copyright, values[6], " ", values[7], RightsReserved, layout.trailer);
  }

  /** The footer line begins after the Deadline row has closed. */
  lemma FooterAfterRows(layout: Layout, cfg: Config, req: QuoteRequest, year: int)
    ensures RowStart(layout, cfg, req, year, Deadline) + |RowOpen(Label(Deadline))|
            + |OrElse(req.deadline, Placeholder)| + |RowClose| <= FooterStart(layout, cfg, req, year)
  {
    var values := QuoteValues(cfg, req, year);
    assert values[5] == OrElse(req.deadline, Placeholder);
    SubstitutionsInOrder(QuoteChunks(layout), values, 5, 6);
  }
}

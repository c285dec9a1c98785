# Contact and quote mail relay: a Dafny model of the message builders

The relay is a small Express server with two POST endpoints. `/api/quote`
takes a multipart form with the fields company, email, project, quantity
and deadline, plus any number of files named `attachment`. `/api/send-email`
takes a JSON body with the fields name, email and message. Each endpoint
turns the request into one outgoing mail (`mailOptions`), hands it to an
SMTP transport, and answers
`{success: true, message: "Email sent successfully!"}` with status 200, or
`{success: false, message: "Failed to send email"}` with status 500 when
sending fails.

This project models that core as pure functions. It also proves what the
built message contains:

- **Addressing.** `from` and `to` are the company address and `replyTo` is
  the requester's email, each of them possibly undefined.
- **Subject.** The quote subject falls back from company to email to
  "Unknown".
- **Quote body.** Empty or missing fields show as "N/A".
- **Contact body.** Fields are inserted verbatim, with a missing one shown
  as "undefined".
- **Layout.** Every labelled row sits in its place and the rows come in
  order. The header carries the company name and the footer carries the
  year and the company name.
- **Attachments.** There is one attachment per uploaded file, in order,
  with its name and bytes unchanged.
- **Reply.** The status and body follow the outcome of the send, and
  nothing of the error is revealed.

Modules:

- `Wrappers`: `Option`, which stands for a JavaScript value that may be
  `undefined`.
- `JsText`: JavaScript truthiness, `a || b`, and `${v}` applied to a string
  or `undefined`. It also defines the decimal form of an integer as
  `Number.prototype.toString` writes it, with its round trip.
- `TemplateLiteral`: evaluation of an untagged template literal (ECMA-262,
  section 13.2.8) from its literal chunks and substituted values. Its
  lemmas place each value at its offset, bracketed by the literal text on
  either side of it.
- `Mail`: the settings read from the environment, the uploaded file,
  `mailOptions`, `req.files || []`, and the mapping from files to
  attachments.
- `Markup`: the markup both templates share. It also defines `Layout`, the
  long styling text around the header, the table and the footer.
- `QuoteForm` and `ContactForm`: the two message builders. Each template is
  written as the exact chunk sequence of the source's template literal.
  - The properties are proved for every `Layout`, so that the proofs do not
    carry about 900 characters of CSS.
  - `QuoteForm.QuoteLayout` and `ContactForm.ContactLayout` hold the
    handlers' exact text. The routes use them.
- `Replies`: the mapping from send outcome to HTTP status and JSON body.
- `Routes`: each handler, as building the message, sending it once, and
  replying.

The footer's copyright sign is the HTML entity `&copy;` in the handlers'
templates, and the model keeps the entity as written.

## Model

| member | source | states |
|---|---|---|
| JsText.Truthy | index.js:49 | JavaScript truthiness of a string-or-undefined value (undefined and "" are falsy); its use is stated by JsText.Or and JsText.OrElse |
| JsText.Or | index.js:49 | one operand or-ed with another, on strings or undefined: truthy exactly when either operand is; the first operand when it is truthy, otherwise the second |
| JsText.Show | index.js:109-117 | `${v}` of a string or undefined (also the company name at lines 53, 69, 100 and 127); its meaning is stated by ContactForm.InsertedValue (the string itself, or "undefined") |
| JsText.OrElse | index.js:58-62 | a field or-ed with a literal fallback: the value itself when it is a non-empty string, otherwise the fallback; never falsy |
| JsText.NatToDecimal | index.js:69 | decimal digits of a natural: non-empty, all digits, no leading zero except for 0, a single digit exactly for n < 10 |
| JsText.NatToDecimalRoundTrip | index.js:69 | reading the digits back gives the number |
| JsText.NumberToString | index.js:69 | `String(n)` of an integer: non-empty, a leading '-' exactly for negative n, digits after it |
| JsText.SignedReading | index.js:69 | a minus sign before a digit string negates the value it is read as |
| JsText.NumberToStringRoundTrip | index.js:69 | parsing the text back gives the integer, so the year is shown exactly |
| JsText.NumberToStringInjective | index.js:69 | different years give different decimal texts |
| JsText.DigitChar | index.js:69 | a digit value below 10 maps to a digit character |
| JsText.DigitValue | index.js:69 | a digit character has a value below 10 |
| Mail.FilesOrEmpty | index.js:35 | the file list or-ed with the empty array: a missing file list becomes empty; a present one, even empty, is kept |
| Mail.Attachments | index.js:40-43 | one attachment per file, same count and order, filename = originalname, content = buffer |
| TemplateLiteral.Interpolate | index.js:50-73 | evaluation of a template literal (this one and the one at lines 96-131), first chunk, then each value followed by the next chunk; its meaning is stated by InterpolateEnds, SubstitutionAt, SubstitutionsInOrder, Framed and Closing |
| TemplateLiteral.InterpolateEnds | index.js:50-73 | an evaluated template starts with its first literal chunk and ends with its last |
| TemplateLiteral.SubstitutionAt | index.js:50-73 | each substituted value appears verbatim at its offset, followed by the next chunk |
| TemplateLiteral.SubstitutionsInOrder | index.js:96-131 | substitutions appear in source order: an earlier value and the chunk right after it end before a later value begins |
| TemplateLiteral.SubstitutionsApart | index.js:96-131 | non-adjacent substitutions are separated by both the chunk after the first and the chunk before the second |
| TemplateLiteral.BeforeGrows | index.js:50-73 | the text before an earlier substitution is a prefix of the text before a later one and of the result |
| TemplateLiteral.BeforeStep | index.js:50-73 | the text before substitution k+1 is the text before k, value k, and chunk k+1 |
| TemplateLiteral.BeforeWhole | index.js:50-73 | the text before the position after the last substitution is the whole result |
| TemplateLiteral.BeforeEndsWithChunk | index.js:50-73 | chunk k ends the text before substitution k |
| TemplateLiteral.OpenBefore | index.js:58 | the tail of chunk k stands immediately before value k |
| TemplateLiteral.CloseAfter | index.js:58 | the head of chunk k+1 stands immediately after value k |
| TemplateLiteral.Framed | index.js:58-62 | a value with the end of the chunk before it and the start of the chunk after it occurs contiguously |
| TemplateLiteral.Closing | index.js:69-73 | the last two substitutions, the chunks between and after them, and the end of the chunk before them, end the result; position and length agree |
| QuoteForm.QuoteValues | index.js:53-69 | the eight substituted values of the quote template; stated by QuoteForm.DisplayedValue and the QuoteHeader and QuoteFooter lemmas |
| QuoteForm.QuoteHtml | index.js:50-73 | the quote HTML body; stated by QuoteForm.QuoteFieldRow, QuoteRowsInOrder, QuoteHeader and QuoteFooter |
| QuoteForm.QuoteChunks | index.js:50-73 | the quote template has nine literal chunks, so eight substitutions |
| QuoteForm.QuoteSubject | index.js:49 | "Quote Request from " followed by the company if truthy, else the email if truthy, else "Unknown" |
| QuoteForm.QuoteMessage | index.js:35-75 | from = to = COMPANY_EMAIL, replyTo = email, the subject above, the HTML template, and attachments mirroring the uploaded files (empty when there are none) |
| QuoteForm.RowChunks | index.js:58-62 | in the template, each field's substitution is preceded by its labelled row opening and followed by the row close |
| QuoteForm.DisplayedValue | index.js:58-62 | the value substituted for a field is the field when it is a non-empty string, otherwise "N/A" |
| QuoteForm.RowInTemplate | index.js:58-62 | for any substituted values, each field's row occurs contiguously at its position |
| QuoteForm.QuoteFieldRow | index.js:58-62 | the HTML contains `<tr><td style="font-weight: bold;">Label:</td><td>` + value-or-"N/A" + `</td></tr>` for each of the five fields |
| QuoteForm.AdjacentRows | index.js:58-62 | the chunk between two consecutive rows begins with one row's close, ends with the next row's opening, and is at least as long as both together |
| QuoteForm.RowsInOrderInTemplate | index.js:58-62 | for any substituted values, the rows do not overlap and keep their source order |
| QuoteForm.QuoteRowsInOrder | index.js:58-62 | rows appear in the order Company, Email, Project, Quantity, Deadline, each ending before the next begins |
| QuoteForm.QuoteHeader | index.js:53 | the heading `<h2 …>` + COMPANY_NAME (or "undefined") + `</h2>` follows the opening styling |
| QuoteForm.FooterChunks | index.js:67-73 | the chunk before the year ends with `&copy; `, a single space joins year and company name, and the rest of the line with the closing markup follows |
| QuoteForm.FooterLine | index.js:69-73 | the HTML ends with `&copy; ` + year + " " + `${COMPANY_NAME}` + `. All rights reserved.</p>` + the closing markup |
| QuoteForm.FooterAfterRows | index.js:62-69 | the footer line begins after the whole Deadline row: its opening, its value or "N/A", and `</td></tr>` |
| QuoteForm.QuoteFooter | index.js:69-73 | the HTML ends with `&copy; ` + the year in decimal + " " + COMPANY_NAME (or "undefined") + `. All rights reserved.</p>` and the closing markup; the line begins after the last row has closed |
| ContactForm.ContactValues | index.js:100-127 | the six substituted values of the contact template; stated by ContactForm.InsertedValue and the ContactHeader and ContactFooter lemmas |
| ContactForm.ContactHtml | index.js:96-131 | the contact HTML body; stated by ContactForm.ContactFieldRow, ContactInputVerbatim, ContactRowsInOrder, ContactHeader and ContactFooter |
| ContactForm.ContactChunks | index.js:96-131 | the contact template has seven literal chunks, so six substitutions |
| ContactForm.ContactMessage | index.js:91-132 | from = to = COMPANY_EMAIL, replyTo = email, the fixed subject "New Contact Message from Website", the HTML template, no attachments |
| ContactForm.CellChunks | index.js:107-118 | each field's substitution is preceded by its label cell and the opening of its value cell, and followed by `</td>` |
| ContactForm.InsertedValue | index.js:109-117 | the value substituted for a field is the field verbatim, or "undefined" when it is missing; the empty string stays empty |
| ContactForm.CellInTemplate | index.js:107-118 | for any substituted values, each field's cells occur contiguously at their position |
| ContactForm.ContactFieldRow | index.js:107-118 | the HTML contains the label cell, the value cell opening, the field text and `</td>` for Name, Email and Message |
| ContactForm.ContactInputVerbatim | index.js:109-117 | a supplied field's text occurs unescaped and unchanged in its value cell, whatever it contains |
| ContactForm.AdjacentCells | index.js:107-118 | the chunk between two consecutive value cells begins with one cell's close, ends with the next label and cell opening, and is at least as long as both together |
| ContactForm.CellsInOrderInTemplate | index.js:107-118 | for any substituted values, the rows do not overlap and keep their source order |
| ContactForm.ContactRowsInOrder | index.js:107-118 | rows appear in the order Name, Email, Message, each ending before the next begins |
| ContactForm.ContactHeader | index.js:100 | the heading holds COMPANY_NAME (or "undefined") followed by " Contact Form</h2>" |
| ContactForm.FooterChunks | index.js:125-131 | the chunk before the year ends with `&copy; `, a single space joins year and company name, and the rest of the line with the closing markup follows |
| ContactForm.FooterLine | index.js:127-131 | the HTML ends with `&copy; ` + year + " " + `${COMPANY_NAME}` + `. All rights reserved.</p>` + the closing markup |
| ContactForm.FooterAfterRows | index.js:117-127 | the footer line begins after the whole Message row: its label and value cell opening, the message text or "undefined", and `</td>` |
| ContactForm.ContactFooter | index.js:127-131 | the HTML ends with `&copy; ` + the year + " " + COMPANY_NAME (or "undefined") + `. All rights reserved.</p>` and the closing markup; the line begins after the last row has closed |
| Replies.ReplyFor | index.js:77-81 | status 200 with success true and "Email sent successfully!" exactly when the send resolved; otherwise 500 with success false and "Failed to send email" |
| Replies.FailureHidesReason | index.js:79-81 | the failure reply is the same whatever the error was |
| Routes.Deliver | index.js:77-81 | the outcome is that of sending the built message unchanged (the message the transport is given, or would be given when building the transport fails first); on a successful send the reply is 200 with success true and "Email sent successfully!", on a failed one 500 with success false and "Failed to send email" |
| Routes.QuoteRoute | index.js:33-83 | the quote handler: the message sent is addressed from and to COMPANY_EMAIL with the requester's email as reply-to, has the fallback subject and the quote HTML, and carries one attachment per uploaded file, with its name and bytes, in order (none when there are none); the reply is the success reply exactly when that message is sent, and the failure reply exactly when sending fails |
| Routes.ContactRoute | index.js:85-140 | the contact handler: the message sent is addressed from and to COMPANY_EMAIL with the sender's email as reply-to, has the fixed subject, the contact HTML and no attachments; the reply is the success reply exactly when that message is sent, and the failure reply exactly when sending fails |
| Routes.RepliesFollowTransport | index.js:134-138 | a transport that always delivers yields the success reply for every message; one that always fails yields the failure reply |

## Left out

- The HTTP server is left out: express, CORS, JSON body parsing, routing
  and `app.listen` on PORT. Each handler is a function from its parsed
  inputs to the message it sends and the reply.
- multer's multipart parsing and in-memory storage are left out. A file
  keeps only `originalname` and `buffer`. A form field repeated into an
  array, and non-string JSON values, are not modelled, so every field is a
  string or undefined.
- The handlers read `req.body` without checking it. A request whose body
  was not parsed at all makes that read throw before the `try`; this is not
  modelled.
- `createTransporter` and SMTP are left out, including host, port,
  `parseInt`, `SMTP_SECURE`, authentication and the "SSLv3" cipher
  setting.
  - The send is a parameter: a function from the message to its outcome.
  - Every failure of building the transport or sending is one `Failed`
    outcome.
- Reading the environment (dotenv, `process.env`) is left out. The two
  settings the builders use, `COMPANY_NAME` and `COMPANY_EMAIL`, are
  `Option` values passed in.
- The clock (`new Date().getFullYear()`) is left out. The year is an
  integer parameter, written in plain decimal, which is how JavaScript
  writes integers of that size.
- `console.error` logging and the JSON serialisation of the reply are left
  out.
- Asynchrony and concurrent requests are left out. Because the model is
  pure, no request can see another's data.
- ContactForm.ContactMessage: the source object has no `attachments` key.
  The model writes this as the empty list, which nodemailer treats the same
  way.
- Strings are sequences of Unicode scalar values (Dafny `string`), not of
  UTF-16 code units as in JavaScript. An unpaired surrogate, which a JSON
  body such as `{"name":"\ud800"}` can carry, cannot be represented. Every
  position and length (RowStart, CellStart, FooterStart, Offset) counts
  scalar values, so a character outside the Basic Multilingual Plane, such
  as the 📩 in both templates, is one position here and two code units in
  JavaScript. ContactForm.ContactInputVerbatim and the other placement
  lemmas therefore speak of well-formed strings only.
- QuoteForm.QuoteLayout and ContactForm.ContactLayout are the exact
  styling text of the two templates. That text is given as data. The
  properties above are proved for any layout text, so none of them depends
  on it.

/** The records the relay passes to its mail library: the deployment
    settings it reads, the files the multipart parser hands it, and the
    outgoing message (`mailOptions`) with its attachment list. */
module Mail {
  import opened Wrappers

  type Byte = bv8

  /** The two environment settings the message builders read:
      `COMPANY_NAME` and `COMPANY_EMAIL`, each possibly unset. */
  datatype Config = Config(companyName: Option<string>, companyEmail: Option<string>)

  /** One file as the in-memory multipart parser delivers it: the name the
      client gave it and its bytes. */
  datatype UploadedFile = UploadedFile(originalname: string, buffer: seq<Byte>)

  datatype Attachment = Attachment(filename: string, content: seq<Byte>)

  /** `mailOptions`: sender, reply-to and recipient as the handler set them
      (the environment value or undefined, the caller's email or
      undefined), subject, HTML body and attachments. */
  datatype OutboundMessage = OutboundMessage(
    from: Option<string>,
    replyTo: Option<string>,
    to: Option<string>,
    subject: string,
    html: string,
    attachments: seq<Attachment>)

  /** `req.files || []`: an array, even an empty one, is truthy, so only a
      missing file list is replaced by the empty one. */
  function FilesOrEmpty(files: Option<seq<UploadedFile>>): (r: seq<UploadedFile>)
    ensures files.None? ==> r == []
    ensures files.Some? ==> r == files.value
  {
    match files
    case Some(fs) => fs
    case None => []
  }

  /** `files.map(file => ({filename: file.originalname, content: file.buffer}))`:
      one attachment per file, in the same order, carrying the file's name
      and bytes unchanged. */
  function Attachments(files: seq<UploadedFile>): (r: seq<Attachment>)
    ensures |r| == |files|
    ensures forall i | 0 <= i < |files| ::
              r[i].filename == files[i].originalname && r[i].content == files[i].buffer
  {
    if files == [] then []
    else [Attachment(files[0].originalname, files[0].buffer)] + Attachments(files[1..])
  }
}

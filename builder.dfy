/** Building the MIME body: `build_mimetext_part`, `build_mime_part`,
    `Attachment.as_mime_part`, `EmbeddedFile.as_mime_part` and `build_mail`.
    The body is the text leaf, the HTML leaf, or both in a
    multipart/alternative (section 5.1.4 of RFC 2046); embedded files wrap
    it in a multipart/related (RFC 2387); attachments wrap the result in a
    multipart/mixed (section 5.1.3 of RFC 2046). */
module Builder {
  import opened Strings
  import opened Headers
  import opened Mime

  /** `build_mimetext_part(content, charset, subtype, use_quoted_printable)`:
      a text leaf, quoted-printable only when asked for. */
  function BuildMimeTextPart(content: string, charset: Option<string>, subtype: string, useQuotedPrintable: bool): (r: Part)
    ensures IsLeaf(r) && r.maintype == "text" && r.subtype == subtype && r.fields == []
    ensures r.body.TextPayload? && r.body.content == content && r.body.charset == charset
    ensures r.body.encoding == QuotedPrintable <==> useQuotedPrintable
    ensures r.body.encoding != Base64
  {
    Part("text", subtype, [], TextPayload(content, charset, if useQuotedPrintable then QuotedPrintable else CharsetDefault))
  }

  /** `build_mime_part`: a text leaf for main type "text", otherwise a
      binary leaf whose payload is base64-encoded. */
  function BuildMimePart(data: string, maintype: string, subtype: string, charset: Option<string>, useQuotedPrintable: bool): (r: Part)
    ensures IsLeaf(r) && r.maintype == maintype && r.subtype == subtype && r.fields == []
    ensures PayloadData(r.body) == data
    ensures r.body.TextPayload? <==> maintype == "text"
    ensures r.body.TextPayload? ==> r.body.charset == charset
    ensures r.body.encoding == QuotedPrintable <==> maintype == "text" && useQuotedPrintable
    ensures r.body.encoding == Base64 <==> maintype != "text"
  {
    if maintype == "text" then BuildMimeTextPart(data, charset, subtype, useQuotedPrintable)
    else Part(maintype, subtype, [], BinaryPayload(data, Base64))
  }

  /** A file to attach (the source's `Attachment` named tuple). */
  datatype Attachment = Attachment(
    data: string, maintype: string, subtype: string,
    filename: Option<string>, charset: Option<string>, useQuotedPrintable: bool)

  /** A file embedded in the body and referred to by its content id (the
      source's `EmbeddedFile` named tuple). */
  datatype EmbeddedFile = EmbeddedFile(
    data: string, maintype: string, subtype: string,
    contentId: Option<string>, charset: Option<string>, filename: Option<string>)

  /** `Attachment.as_mime_part`: the leaf with
      `Content-Disposition: attachment` and its filename parameter. */
  function AttachmentAsMimePart(a: Attachment): (r: Part)
    ensures IsLeaf(r) && r.maintype == a.maintype && r.subtype == a.subtype
    ensures PayloadData(r.body) == a.data
    ensures r.body.encoding == QuotedPrintable <==> a.maintype == "text" && a.useQuotedPrintable
    ensures a.maintype != "text" ==> r.body == BinaryPayload(a.data, Base64)
    ensures a.maintype == "text" ==>
      r.body == TextPayload(a.data, a.charset, if a.useQuotedPrintable then QuotedPrintable else CharsetDefault)
    ensures r.fields == [Field("Content-Disposition", Text("attachment"), [Param("filename", a.filename)])]
  {
    var part := BuildMimePart(a.data, a.maintype, a.subtype, a.charset, a.useQuotedPrintable);
    part.(fields := part.fields + [Field("Content-Disposition", Text("attachment"), [Param("filename", a.filename)])])
  }

  /** Python's `'%s' % value` for an optional string. */
  function OrNone(s: Option<string>): string
  {
    if s.Some? then s.value else "None"
  }

  /** The Content-Disposition value of an embedded file: `inline`, followed
      by the filename when one is set and not empty. */
  function InlineDisposition(filename: Option<string>): (r: string)
    ensures r == "inline" <==> filename.None? || filename.value == ""
    ensures r != "inline" ==> r == "inline; filename=\"" + filename.value + "\""
  {
    if filename.Some? && filename.value != "" then "inline; filename=\"" + filename.value + "\"" else "inline"
  }

  /** `EmbeddedFile.as_mime_part`: the leaf (never quoted-printable) with
      `Content-ID: <id>` and an inline Content-Disposition. */
  function EmbeddedAsMimePart(e: EmbeddedFile): (r: Part)
    ensures IsLeaf(r) && r.maintype == e.maintype && r.subtype == e.subtype
    ensures PayloadData(r.body) == e.data
    ensures r.body.encoding != QuotedPrintable
    ensures e.maintype != "text" ==> r.body == BinaryPayload(e.data, Base64)
    ensures e.maintype == "text" ==> r.body == TextPayload(e.data, e.charset, CharsetDefault)
    ensures |r.fields| == 2
    ensures r.fields[0] == Field("Content-ID", Text("<" + OrNone(e.contentId) + ">"), [])
    ensures r.fields[1].name == "Content-Disposition" && r.fields[1].params == []
    ensures r.fields[1].value == Text(InlineDisposition(e.filename))
  {
    var part := BuildMimePart(e.data, e.maintype, e.subtype, e.charset, false);
    part.(fields := part.fields + [
      Field("Content-ID", Text("<" + OrNone(e.contentId) + ">"), []),
      Field("Content-Disposition", Text(InlineDisposition(e.filename)), [])])
  }

  /** An entry of `build_mail`'s attachments list: a part that is already
      built, an Attachment object, a plain tuple of Attachment fields
      (which takes `build_mail`'s quoted-printable flag), or an EmbeddedFile,
      which, having an `as_mime_part` of its own, is converted by it. */
  datatype AttachmentEntry =
    | ReadyAttachment(part: Part)
    | AttachmentObject(attachment: Attachment)
    | AttachmentTuple(data: string, maintype: string, subtype: string, filename: Option<string>, charset: Option<string>)
    | AttachedEmbeddedFile(file: EmbeddedFile)

  /** An entry of `build_mail`'s embeddeds list: a part that is already
      built, an EmbeddedFile (a plain tuple stands for the EmbeddedFile it
      is turned into), or an Attachment, converted by its own
      `as_mime_part`. */
  datatype EmbeddedEntry =
    | ReadyEmbedded(part: Part)
    | EmbeddedObject(file: EmbeddedFile)
    | EmbeddedAttachment(attachment: Attachment)

  /** The part attached for one entry: a ready part unchanged, an object
      converted by its own method, a tuple made into an Attachment with
      `build_mail`'s flag and converted. */
  function AttachmentEntryPart(entry: AttachmentEntry, useQuotedPrintable: bool): (r: Part)
    ensures entry.ReadyAttachment? ==> r == entry.part
    ensures entry.AttachmentObject? ==> r == AttachmentAsMimePart(entry.attachment)
    ensures entry.AttachmentTuple? ==>
      r == AttachmentAsMimePart(Attachment(entry.data, entry.maintype, entry.subtype, entry.filename, entry.charset, useQuotedPrintable))
    ensures entry.AttachmentTuple? ==>
      IsLeaf(r) && (r.body.encoding == QuotedPrintable <==> entry.maintype == "text" && useQuotedPrintable)
    ensures entry.AttachedEmbeddedFile? ==> r == EmbeddedAsMimePart(entry.file)
    ensures !entry.ReadyAttachment? ==> IsLeaf(r)
  {
    match entry
    case ReadyAttachment(part) => part
    case AttachmentObject(a) => AttachmentAsMimePart(a)
    case AttachmentTuple(data, maintype, subtype, filename, charset) =>
      AttachmentAsMimePart(Attachment(data, maintype, subtype, filename, charset, useQuotedPrintable))
    case AttachedEmbeddedFile(e) => EmbeddedAsMimePart(e)
  }

  /** The part attached for one embedded entry: a ready part unchanged,
      an object converted by its own method. */
  function EmbeddedEntryPart(entry: EmbeddedEntry): (r: Part)
    ensures entry.ReadyEmbedded? ==> r == entry.part
    ensures entry.EmbeddedObject? ==> r == EmbeddedAsMimePart(entry.file)
    ensures entry.EmbeddedObject? ==> IsLeaf(r) && r.body.encoding != QuotedPrintable && |r.fields| == 2 && r.fields[0].name == "Content-ID"
    ensures entry.EmbeddedAttachment? ==> r == AttachmentAsMimePart(entry.attachment)
    ensures !entry.ReadyEmbedded? ==> IsLeaf(r)
  {
    match entry
    case ReadyEmbedded(part) => part
    case EmbeddedObject(e) => EmbeddedAsMimePart(e)
    case EmbeddedAttachment(a) => AttachmentAsMimePart(a)
  }

  function AttachmentParts(entries: seq<AttachmentEntry>, useQuotedPrintable: bool): (ps: seq<Part>)
    ensures |ps| == |entries|
    ensures forall i :: 0 <= i < |entries| ==> ps[i] == AttachmentEntryPart(entries[i], useQuotedPrintable)
  {
    seq(|entries|, i requires 0 <= i < |entries| => AttachmentEntryPart(entries[i], useQuotedPrintable))
  }

  function EmbeddedParts(entries: seq<EmbeddedEntry>): (ps: seq<Part>)
    ensures |ps| == |entries|
    ensures forall i :: 0 <= i < |entries| ==> ps[i] == EmbeddedEntryPart(entries[i])
  {
    seq(|entries|, i requires 0 <= i < |entries| => EmbeddedEntryPart(entries[i]))
  }

  /** The body used when neither text nor HTML is given. */
  const EmptyText: Part := BuildMimeTextPart("", Some(UsAscii), "plain", false)

  /** The text leaf of a `(content, charset)` pair. */
  function TextLeaf(text: (string, string), useQuotedPrintable: bool): Part
  {
    BuildMimeTextPart(text.0, Some(text.1), "plain", useQuotedPrintable)
  }

  /** The HTML leaf of a `(content, charset)` pair. */
  function HtmlLeaf(html: (string, string), useQuotedPrintable: bool): Part
  {
    BuildMimeTextPart(html.0, Some(html.1), "html", useQuotedPrintable)
  }

  /** The body chosen from the text and HTML inputs: a text leaf or a
      multipart/alternative, never a related or mixed multipart. */
  function MessageText(text: Option<(string, string)>, html: Option<(string, string)>, useQuotedPrintable: bool): (b: Part)
    ensures b.maintype == "text" || IsMultipart(b, "alternative")
    ensures !IsMultipart(b, "related") && !IsMultipart(b, "mixed")
  {
    if text.None? && html.None? then EmptyText
    else if text.Some? && html.Some? then
      Part("multipart", "alternative", [], Parts([TextLeaf(text.value, useQuotedPrintable), HtmlLeaf(html.value, useQuotedPrintable)]))
    else if text.Some? then TextLeaf(text.value, useQuotedPrintable)
    else HtmlLeaf(html.value, useQuotedPrintable)
  }

  /** A multipart of the given subtype holding `first` then `rest`. */
  function Wrap(first: Part, subtype: string, rest: seq<Part>): Part
  {
    Part("multipart", subtype, [], Parts([first] + rest))
  }

  /** The tree `build_mail` returns: a multipart/mixed when there are
      attachments, else a multipart/related when there are embedded files,
      else the body itself. */
  function MailBody(
    text: Option<(string, string)>, html: Option<(string, string)>,
    attachments: seq<AttachmentEntry>, embeddeds: seq<EmbeddedEntry>, useQuotedPrintable: bool): (r: Part)
    ensures |attachments| > 0 ==> IsMultipart(r, "mixed")
    ensures |attachments| == 0 && |embeddeds| > 0 ==> IsMultipart(r, "related")
    ensures |attachments| == 0 && |embeddeds| == 0 ==> r == MessageText(text, html, useQuotedPrintable)
  {
    var body := MessageText(text, html, useQuotedPrintable);
    var related := if |embeddeds| == 0 then body else Wrap(body, "related", EmbeddedParts(embeddeds));
    if |attachments| == 0 then related else Wrap(related, "mixed", AttachmentParts(attachments, useQuotedPrintable))
  }

  /** The leaves the text and HTML inputs give, text first. */
  function InputLeaves(text: Option<(string, string)>, html: Option<(string, string)>, useQuotedPrintable: bool): seq<Part>
  {
    (if text.Some? then [TextLeaf(text.value, useQuotedPrintable)] else [])
      + (if html.Some? then [HtmlLeaf(html.value, useQuotedPrintable)] else [])
  }

  /** The body chosen from the text and HTML inputs shows exactly the given
      leaves, text before HTML, or the empty us-ascii text when none is
      given: both inputs together are the two children of a
      multipart/alternative, a single input is the body itself, and it is
      never a related or mixed multipart. */
  lemma MessageTextLeaves(text: Option<(string, string)>, html: Option<(string, string)>, useQuotedPrintable: bool)
    ensures Leaves(MessageText(text, html, useQuotedPrintable))
         == if text.None? && html.None? then [EmptyText] else InputLeaves(text, html, useQuotedPrintable)
    ensures var b := MessageText(text, html, useQuotedPrintable);
      text.Some? && html.Some? ==>
        IsMultipart(b, "alternative")
        && b.body.children == [TextLeaf(text.value, useQuotedPrintable), HtmlLeaf(html.value, useQuotedPrintable)]
    ensures text.Some? != html.Some? ==> IsLeaf(MessageText(text, html, useQuotedPrintable))
    ensures text.Some? && html.None? ==> MessageText(text, html, useQuotedPrintable) == TextLeaf(text.value, useQuotedPrintable)
    ensures text.None? && html.Some? ==> MessageText(text, html, useQuotedPrintable) == HtmlLeaf(html.value, useQuotedPrintable)
    ensures text.None? && html.None? ==> MessageText(text, html, useQuotedPrintable) == EmptyText
    ensures !IsMultipart(MessageText(text, html, useQuotedPrintable), "related")
    ensures !IsMultipart(MessageText(text, html, useQuotedPrintable), "mixed")
  {
    var body := MessageText(text, html, useQuotedPrintable);
    if text.Some? && html.Some? {
      var t, h := TextLeaf(text.value, useQuotedPrintable), HtmlLeaf(html.value, useQuotedPrintable);
      assert [t, h][1..] == [h];
      calc {
        Leaves(body);
        LeavesOf([t, h]);
        Leaves(t) + LeavesOf([h]);
        [t] + [h] + LeavesOf([]);
      }
    }
  }

  /** A multipart's leaves are those of its first child and then those of
      the rest, in order. */
  lemma WrapLeaves(first: Part, subtype: string, rest: seq<Part>)
    ensures Leaves(Wrap(first, subtype, rest)) == Leaves(first) + LeavesOf(rest)
  {
    LeavesOfAppend([first], rest);
    assert LeavesOf([first]) == Leaves(first) + LeavesOf([]);
  }

  /** The part `build_mail` wrapped in its multipart/mixed: the first child
      of a mixed multipart, otherwise the part itself. */
  function WithoutAttachments(p: Part): Part
  {
    if IsMultipart(p, "mixed") && |p.body.children| > 0 then p.body.children[0] else p
  }

  /** Takes apart what `build_mail` put together: the body, the embedded
      parts and the attached parts. */
  function Unwrap(p: Part): (Part, seq<Part>, seq<Part>)
  {
    var attached := if IsMultipart(p, "mixed") && |p.body.children| > 0 then p.body.children[1..] else [];
    var inner := WithoutAttachments(p);
    if IsMultipart(inner, "related") && |inner.body.children| > 0 then
      (inner.body.children[0], inner.body.children[1..], attached)
    else (inner, [], attached)
  }

  /** The tree `build_mail` returns is a multipart/mixed exactly when there
      are attachments, with one child more than there are attachments; what
      it wraps is a multipart/related exactly when there are embedded files,
      again with one child more than there are files; and the body, the
      converted embedded files and the converted attachments are recovered
      from it, each in input order. */
  lemma UnwrapMailBody(
    text: Option<(string, string)>, html: Option<(string, string)>,
    attachments: seq<AttachmentEntry>, embeddeds: seq<EmbeddedEntry>, useQuotedPrintable: bool)
    ensures var p := MailBody(text, html, attachments, embeddeds, useQuotedPrintable);
      (IsMultipart(p, "mixed") <==> |attachments| > 0)
      && (IsMultipart(p, "mixed") ==> |p.body.children| == 1 + |attachments|)
      && (IsMultipart(WithoutAttachments(p), "related") <==> |embeddeds| > 0)
      && (IsMultipart(WithoutAttachments(p), "related") ==> |WithoutAttachments(p).body.children| == 1 + |embeddeds|)
    ensures Unwrap(MailBody(text, html, attachments, embeddeds, useQuotedPrintable))
         == (MessageText(text, html, useQuotedPrintable), EmbeddedParts(embeddeds), AttachmentParts(attachments, useQuotedPrintable))
  {
    MessageTextLeaves(text, html, useQuotedPrintable);
  }

  /** The leaves of the mail are the body's, then the embedded files', then
      the attachments', each in input order. */
  lemma MailBodyLeaves(
    text: Option<(string, string)>, html: Option<(string, string)>,
    attachments: seq<AttachmentEntry>, embeddeds: seq<EmbeddedEntry>, useQuotedPrintable: bool)
    ensures Leaves(MailBody(text, html, attachments, embeddeds, useQuotedPrintable))
         == Leaves(MessageText(text, html, useQuotedPrintable))
            + LeavesOf(EmbeddedParts(embeddeds)) + LeavesOf(AttachmentParts(attachments, useQuotedPrintable))
  {
    var body := MessageText(text, html, useQuotedPrintable);
    var related := if |embeddeds| == 0 then body else Wrap(body, "related", EmbeddedParts(embeddeds));
    if |embeddeds| > 0 {
      WrapLeaves(body, "related", EmbeddedParts(embeddeds));
    }
    assert Leaves(related) == Leaves(body) + LeavesOf(EmbeddedParts(embeddeds));
    if |attachments| > 0 {
      WrapLeaves(related, "mixed", AttachmentParts(attachments, useQuotedPrintable));
    }
  }

  /** No entry is a ready-made multipart. */
  predicate NoReadyMultipart(attachments: seq<AttachmentEntry>, embeddeds: seq<EmbeddedEntry>)
  {
    (forall i :: 0 <= i < |attachments| ==> !(attachments[i].ReadyAttachment? && attachments[i].part.body.Parts?))
    && (forall i :: 0 <= i < |embeddeds| ==> !(embeddeds[i].ReadyEmbedded? && embeddeds[i].part.body.Parts?))
  }

  /** When no entry is itself a multipart, a reader of the mail sees one
      part per text or HTML input (at least one), one per embedded file and
      one per attachment. */
  lemma MailBodyPartCount(
    text: Option<(string, string)>, html: Option<(string, string)>,
    attachments: seq<AttachmentEntry>, embeddeds: seq<EmbeddedEntry>, useQuotedPrintable: bool)
    requires NoReadyMultipart(attachments, embeddeds)
    ensures |Leaves(MailBody(text, html, attachments, embeddeds, useQuotedPrintable))|
         == (if text.None? && html.None? then 1 else |InputLeaves(text, html, useQuotedPrintable)|)
            + |embeddeds| + |attachments|
  {
    MailBodyLeaves(text, html, attachments, embeddeds, useQuotedPrintable);
    MessageTextLeaves(text, html, useQuotedPrintable);
    var es := EmbeddedParts(embeddeds);
    var ats := AttachmentParts(attachments, useQuotedPrintable);
    assert forall i :: 0 <= i < |es| ==> !es[i].body.Parts?;
    assert forall i :: 0 <= i < |ats| ==> !ats[i].body.Parts?;
    LeavesOfLeaves(es);
    LeavesOfLeaves(ats);
  }

  /** The loop of `build_mail` over the embedded files: attach each one,
      converted, to `related`. */
  method AttachEmbeddeds(related: Message, embeddeds: seq<EmbeddedEntry>)
    requires related.body.Parts?
    modifies related`body
    ensures related.body == Parts(old(related.body.children) + EmbeddedParts(embeddeds))
  {
    var i := 0;
    while i < |embeddeds|
      invariant 0 <= i <= |embeddeds|
      invariant related.body == Parts(old(related.body.children) + EmbeddedParts(embeddeds[..i]))
    {
      related.Attach(EmbeddedEntryPart(embeddeds[i]));
      assert EmbeddedParts(embeddeds[..i + 1]) == EmbeddedParts(embeddeds[..i]) + [EmbeddedEntryPart(embeddeds[i])];
      i := i + 1;
    }
    assert embeddeds[..i] == embeddeds;
  }

  /** The loop of `build_mail` over the attachments: attach each one,
      converted, to `mixed`. */
  method AttachAttachments(mixed: Message, attachments: seq<AttachmentEntry>, useQuotedPrintable: bool)
    requires mixed.body.Parts?
    modifies mixed`body
    ensures mixed.body == Parts(old(mixed.body.children) + AttachmentParts(attachments, useQuotedPrintable))
  {
    var i := 0;
    while i < |attachments|
      invariant 0 <= i <= |attachments|
      invariant mixed.body == Parts(old(mixed.body.children) + AttachmentParts(attachments[..i], useQuotedPrintable))
    {
      mixed.Attach(AttachmentEntryPart(attachments[i], useQuotedPrintable));
      assert AttachmentParts(attachments[..i + 1], useQuotedPrintable)
          == AttachmentParts(attachments[..i], useQuotedPrintable) + [AttachmentEntryPart(attachments[i], useQuotedPrintable)];
      i := i + 1;
    }
    assert attachments[..i] == attachments;
  }

  /** The first step of `build_mail`: the text part, the HTML part, both
      in a multipart/alternative, or an empty us-ascii text part. */
  method BuildMessageText(text: Option<(string, string)>, html: Option<(string, string)>, useQuotedPrintable: bool)
    returns (main: Message)
    ensures fresh(main)
    ensures main.Value() == MessageText(text, html, useQuotedPrintable)
  {
    var textPart: Message? := null;
    var htmlPart: Message? := null;
    if text.Some? {
      textPart := new Message.FromPart(TextLeaf(text.value, useQuotedPrintable));
      main := textPart;
    }
    if html.Some? {
      htmlPart := new Message.FromPart(HtmlLeaf(html.value, useQuotedPrintable));
      main := htmlPart;
    }
    if textPart == null && htmlPart == null {
      textPart := new Message.FromPart(EmptyText);
      main := textPart;
    } else if textPart != null && htmlPart != null {
      main := new Message.Multipart("alternative", [textPart.Value(), htmlPart.Value()]);
    }
  }

  /** `if embeddeds:` a new multipart/related holding `main`, then the
      converted embedded files; otherwise `main` itself. */
  method WrapEmbeddeds(main: Message, embeddeds: seq<EmbeddedEntry>) returns (r: Message)
    ensures |embeddeds| == 0 ==> r == main
    ensures |embeddeds| > 0 ==> fresh(r)
    ensures r.Value() == if |embeddeds| == 0 then main.Value() else Wrap(main.Value(), "related", EmbeddedParts(embeddeds))
  {
    r := main;
    if |embeddeds| > 0 {
      r := new Message.Multipart("related", []);
      r.Attach(main.Value());
      AttachEmbeddeds(r, embeddeds);
    }
  }

  /** `if attachments:` a new multipart/mixed holding `main`, then the
      converted attachments; otherwise `main` itself. */
  method WrapAttachments(main: Message, attachments: seq<AttachmentEntry>, useQuotedPrintable: bool) returns (r: Message)
    ensures |attachments| == 0 ==> r == main
    ensures |attachments| > 0 ==> fresh(r)
    ensures r.Value() == if |attachments| == 0 then main.Value()
      else Wrap(main.Value(), "mixed", AttachmentParts(attachments, useQuotedPrintable))
  {
    r := main;
    if |attachments| > 0 {
      r := new Message.Multipart("mixed", []);
      r.Attach(main.Value());
      AttachAttachments(r, attachments, useQuotedPrintable);
    }
  }

  /** `build_mail(text, html, attachments, embeddeds, use_quoted_printable)`. */
  method BuildMail(
    text: Option<(string, string)>, html: Option<(string, string)>,
    attachments: seq<AttachmentEntry>, embeddeds: seq<EmbeddedEntry>, useQuotedPrintable: bool)
    returns (result: Message)
    ensures fresh(result)
    ensures result.Value() == MailBody(text, html, attachments, embeddeds, useQuotedPrintable)
  {
    var main := BuildMessageText(text, html, useQuotedPrintable);
    main := WrapEmbeddeds(main, embeddeds);
    result := WrapAttachments(main, attachments, useQuotedPrintable);
  }
}

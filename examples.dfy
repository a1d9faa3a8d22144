/** The source's doctests and unit-test assertions, restated as lemmas
    about the model. */
module Examples {
  import opened Strings
  import opened Headers
  import opened Mime
  import opened Builder
  import opened Finalizer

  /** The rendered headers that the test module asserts: bare mailboxes,
      plain names, and two entries separated by " , ". */
  lemma RenderedOneMailbox()
    ensures Render(AddressListChunks([Mailbox("foo@example.com")], UsAscii)) == "foo@example.com"
  {
    OneEntry(Mailbox("foo@example.com"), UsAscii);
  }

  /** The expected texts spelled out: the literals the tests compare with
      are the concatenations the model renders. */
  lemma TwoMailboxesText()
    ensures "foo@example.com" + " , " + "bar@example.com" == "foo@example.com , bar@example.com"
  {
  }

  lemma TwoNamesText()
    ensures ("Foo" + " <" + "foo@example.com" + ">") + " , " + ("Bar" + " <" + "bar@example.com" + ">")
         == "Foo <foo@example.com> , Bar <bar@example.com>"
  {
  }

  lemma MixedListText()
    ensures "a@bar.com" + " , " + ("John" + " <" + "john@foo.com" + ">") == "a@bar.com , John <john@foo.com>"
  {
  }

  /** Two single-chunk us-ascii addresses render as their texts around " , ". */
  lemma RenderTwo(a: Address, b: Address, ta: string, tb: string)
    requires AddressChunks(a, UsAscii) == [Chunk(ta, UsAscii)]
    requires AddressChunks(b, UsAscii) == [Chunk(tb, UsAscii)]
    ensures Render(AddressListChunks([a, b], UsAscii)) == ta + " , " + tb
  {
    TwoEntries(a, b, UsAscii);
  }

  lemma RenderedTwoMailboxes()
    ensures Render(AddressListChunks([Mailbox("foo@example.com"), Mailbox("bar@example.com")], UsAscii))
         == "foo@example.com , bar@example.com"
  {
    RenderTwo(Mailbox("foo@example.com"), Mailbox("bar@example.com"), "foo@example.com", "bar@example.com");
    TwoMailboxesText();
  }

  lemma RenderedOneName()
    ensures Render(AddressListChunks([Named("Foo", "foo@example.com")], UsAscii)) == "Foo <foo@example.com>"
  {
    PlainName("Foo", "foo@example.com", UsAscii);
    assert "Foo" + " <" + "foo@example.com" + ">" == "Foo <foo@example.com>";
    OneEntry(Named("Foo", "foo@example.com"), UsAscii);
  }

  lemma RenderedTwoNames()
    ensures Render(AddressListChunks([Named("Foo", "foo@example.com"), Named("Bar", "bar@example.com")], UsAscii))
         == "Foo <foo@example.com> , Bar <bar@example.com>"
  {
    PlainName("Foo", "foo@example.com", UsAscii);
    PlainName("Bar", "bar@example.com", UsAscii);
    RenderTwo(Named("Foo", "foo@example.com"), Named("Bar", "bar@example.com"),
      "Foo" + " <" + "foo@example.com" + ">", "Bar" + " <" + "bar@example.com" + ">");
    TwoNamesText();
  }

  /** The us-ascii doctest of `format_addresses`: a bare mailbox and a
      plain name in one list. */
  lemma RenderedMixedList()
    ensures Render(AddressListChunks([Mailbox("a@bar.com"), Named("John", "john@foo.com")], UsAscii))
         == "a@bar.com , John <john@foo.com>"
  {
    PlainName("John", "john@foo.com", UsAscii);
    RenderTwo(Mailbox("a@bar.com"), Named("John", "john@foo.com"), "a@bar.com", "John" + " <" + "john@foo.com" + ">");
    MixedListText();
  }

  /** The iso-8859-1 doctest of `format_addresses`: a display name
      outside us-ascii is kept apart in the header's charset, to be written
      as an encoded-word, and the mailbox follows in us-ascii. */
  lemma NonAsciiNameDoctest()
    ensures AddressListChunks([Named("léo", "leo@foo.com")], "iso-8859-1")
         == [Chunk("léo", "iso-8859-1"), Chunk("<leo@foo.com>", UsAscii)]
  {
    assert "léo"[1] as int >= 128;
    assert !IsAscii("léo");
    assert "<" + "leo@foo.com" == "<leo@foo.com";
    assert "<leo@foo.com" + ">" == "<leo@foo.com>";
    NonAsciiNameEntry(Named("léo", "leo@foo.com"), "iso-8859-1");
    assert [Named("léo", "leo@foo.com")][..0] == [];
  }

  /** The plain-text message of the `complete_mail` doctest. */
  const DoctestText: Part := Part("text", "plain", [], TextPayload("The text.", Some(UsAscii), CharsetDefault))

  /** The `complete_mail` doctest: the envelope, no Message-Id, and the
      fields in the order shown. */
  lemma CompleteMailDoctest()
    ensures var r := Complete(DoctestText, Named("Me", "me@foo.com"), [Named("Him", "him@bar.com")],
      "Non unicode subject", "iso-8859-1", [Mailbox("her@bar.com")], [], None, "", Some(1313558269), 0,
      [("User-Agent", TextValue("pyzmail"))]);
      r.Success? && r.value.mailFrom == "me@foo.com" && r.value.rcptTo == ["him@bar.com", "her@bar.com"]
      && r.value.msgId == None
      && FieldNames(r.value.payload.fields) == ["From", "To", "Cc", "Subject", "Date", "User-Agent"]
  {
    var sender, recipients, cc := Named("Me", "me@foo.com"), [Named("Him", "him@bar.com")], [Mailbox("her@bar.com")];
    var headers := [("User-Agent", TextValue("pyzmail"))];
    CompleteSucceeds(DoctestText, sender, recipients, "Non unicode subject", "iso-8859-1", cc, [], None, "",
      Some(1313558269), 0, headers);
    EnvelopeOrder(recipients, cc, []);
    DoctestFieldNames();
  }

  /** The fields the doctest's message ends up with, by name. */
  lemma DoctestFieldNames()
    ensures FieldNames(DoctestText.fields
      + (HeadFields(Named("Me", "me@foo.com"), [Named("Him", "him@bar.com")], [Mailbox("her@bar.com")],
          "Non unicode subject", "iso-8859-1", 1313558269)
        + IdFields(None) + ExtraFields([("User-Agent", TextValue("pyzmail"))], "iso-8859-1")))
      == ["From", "To", "Cc", "Subject", "Date", "User-Agent"]
  {
    var head := HeadFields(Named("Me", "me@foo.com"), [Named("Him", "him@bar.com")], [Mailbox("her@bar.com")],
      "Non unicode subject", "iso-8859-1", 1313558269);
    var extras := ExtraFields([("User-Agent", TextValue("pyzmail"))], "iso-8859-1");
    HeadFieldOrder(Named("Me", "me@foo.com"), [Named("Him", "him@bar.com")], [Mailbox("her@bar.com")],
      "Non unicode subject", "iso-8859-1", 1313558269);
    assert |extras| == 1 && extras[0].name == "User-Agent";
    var fields := DoctestText.fields + (head + IdFields(None) + extras);
    assert fields == head + extras;
    assert FieldNames(fields) == ["From", "To", "Cc", "Subject", "Date", "User-Agent"];
  }

  /** The From line of the `complete_mail` doctest. */
  lemma DoctestFrom()
    ensures Render(AddressListChunks([Named("Me", "me@foo.com")], "iso-8859-1")) == "Me <me@foo.com>"
  {
    PlainName("Me", "me@foo.com", "iso-8859-1");
    assert "Me" + " <" + "me@foo.com" + ">" == "Me <me@foo.com>";
    OneEntry(Named("Me", "me@foo.com"), "iso-8859-1");
  }

  /** The To line of the `complete_mail` doctest. */
  lemma DoctestTo()
    ensures Render(AddressListChunks([Named("Him", "him@bar.com")], "iso-8859-1")) == "Him <him@bar.com>"
  {
    PlainName("Him", "him@bar.com", "iso-8859-1");
    assert "Him" + " <" + "him@bar.com" + ">" == "Him <him@bar.com>";
    OneEntry(Named("Him", "him@bar.com"), "iso-8859-1");
  }

  /** The Cc line of the `complete_mail` doctest. */
  lemma DoctestCc()
    ensures Render(AddressListChunks([Mailbox("her@bar.com")], "iso-8859-1")) == "her@bar.com"
  {
    OneEntry(Mailbox("her@bar.com"), "iso-8859-1");
  }

  /** The PDF attachment of the build_mail unit test. */
  const TestAttachment: Attachment := Attachment("pdf-content", "application", "pdf", Some("äöü.pdf"), None, false)

  /** The build_mail unit test: quoted-printable text asked for, one
      attachment; the mail shows two parts, the text (quoted-printable)
      and the attachment carrying its non-ASCII filename. */
  lemma BuildMailWithAttachment()
    ensures var p := MailBody(Some(("plain text", "utf8")), None, [AttachmentObject(TestAttachment)], [], true);
      |Leaves(p)| == 2
      && Leaves(p)[0].body == TextPayload("plain text", Some("utf8"), QuotedPrintable)
      && Leaves(p)[1].fields == [Field("Content-Disposition", Text("attachment"), [Param("filename", Some("äöü.pdf"))])]
  {
    var entries := [AttachmentObject(TestAttachment)];
    MailBodyLeaves(Some(("plain text", "utf8")), None, entries, [], true);
    MessageTextLeaves(Some(("plain text", "utf8")), None, true);
    var parts := AttachmentParts(entries, true);
    LeavesOfLeaves(parts);
    assert LeavesOf(EmbeddedParts([])) == [];
  }

  /** The same unit test completes the mail for the bare sender string
      `sender@site.example`; as written, the envelope sender is `e`. */
  lemma BuildMailTestSender(p: Part, now: int)
    ensures var r := Complete(p, Mailbox("sender@site.example"), [Mailbox("recipient@site.example")],
      "subject", "utf8", [], [], None, "", None, now, []);
      r.Success? && r.value.mailFrom == "e" && r.value.rcptTo == ["recipient@site.example"]
  {
    BareSenderMailFrom();
    EnvelopeOrder([Mailbox("recipient@site.example")], [], []);
  }
}

/** Stamping a built message: `complete_mail` works out the SMTP envelope
    (the sender address and the recipient list) and adds the From, To, Cc,
    Subject, Date, Message-Id and extra header fields; `compose_mail` builds
    and stamps in one call.  The library's date formatting is kept symbolic,
    the id `make_msgid` would generate and the current time are inputs, and
    the payload `as_string` would serialise is the message tree itself. */
module Finalizer {
  import opened Strings
  import opened Headers
  import opened Mime
  import opened Builder

  /** Why `complete_mail` stops with an exception. */
  datatype CompleteError =
    | SenderIndexError          // `sender[1]` on a bare string shorter than two characters
    | MessageIdAssertionError   // the rewritten Message-Id has no '@' left

  /** An extra header value: a library Header, used as it is, or a string,
      wrapped in a Header in the mail's default charset. */
  datatype HeaderArg = HeaderObject(chunks: seq<Chunk>) | TextValue(s: string)

  /** What `complete_mail` returns: `(payload, mail_from, rcpt_to, msg_id)`. */
  datatype Completed = Completed(payload: Part, mailFrom: string, rcptTo: seq<string>, msgId: Option<string>)

  /** `getaddr`: the address of a (name, address) pair, a bare string as it is. */
  function GetAddr(a: Address): string
  {
    match a
    case Named(_, addr) => addr
    case Mailbox(s) => s
  }

  /** `list(map(getaddr, addresses))`. */
  function GetAddrs(addresses: seq<Address>): (r: seq<string>)
    ensures |r| == |addresses|
    ensures forall i :: 0 <= i < |addresses| ==> r[i] == GetAddr(addresses[i])
  {
    seq(|addresses|, i requires 0 <= i < |addresses| => GetAddr(addresses[i]))
  }

  /** Mapping over a concatenation maps each half. */
  lemma GetAddrsAppend(xs: seq<Address>, ys: seq<Address>)
    ensures GetAddrs(xs + ys) == GetAddrs(xs) + GetAddrs(ys)
  {
    var l, r := GetAddrs(xs + ys), GetAddrs(xs) + GetAddrs(ys);
    assert |l| == |r|;
    forall i | 0 <= i < |l|
      ensures l[i] == r[i]
    {
      if i < |xs| {
        assert (xs + ys)[i] == xs[i];
      } else {
        assert (xs + ys)[i] == ys[i - |xs|];
      }
    }
  }

  /** The envelope recipients: every recipient, cc and bcc address, in that
      order, duplicates kept. */
  function Envelope(recipients: seq<Address>, cc: seq<Address>, bcc: seq<Address>): seq<string>
  {
    GetAddrs(recipients + cc + bcc)
  }

  /** `getaddr(sender[1])` as written: the address of a pair, but the
      second character of a bare string, and an IndexError when the bare
      string has fewer than two characters. */
  function SenderMailFrom(sender: Address): (r: Result<string, CompleteError>)
    ensures r.Failure? <==> sender.Mailbox? && |sender.mailbox| < 2
    ensures r.Failure? ==> r.error == SenderIndexError
    ensures r.Success? ==> r.value == if sender.Named? then sender.addr else [sender.mailbox[1]]
  {
    match sender
    case Named(_, addr) => Success(GetAddr(Mailbox(addr)))
    case Mailbox(s) => if |s| >= 2 then Success(GetAddr(Mailbox([s[1]]))) else Failure(SenderIndexError)
  }

  /** The sender address evidently intended: `getaddr(sender)`. */
  function IntendedMailFrom(sender: Address): string
  {
    GetAddr(sender)
  }

  /** `if date: … else: time.time()`: a missing date and the date 0 both
      fall back to the current time. */
  function EpochFor(date: Option<int>, now: int): (r: int)
    ensures date.Some? && date.value != 0 ==> r == date.value
    ensures date.None? || date.value == 0 ==> r == now
  {
    if date.Some? && date.value != 0 then date.value else now
  }

  /** The Message-Id `complete_mail` settles on, from the caller's seed and
      the id `make_msgid(seed)` generated: none for a missing or empty seed;
      for a seed with an '@', the generated id cut at its last '@' and closed
      with '>', which must still hold an '@'; otherwise the generated id. */
  function MessageIdFor(seed: Option<string>, generated: string): (r: Result<Option<string>, CompleteError>)
    ensures seed.None? || seed.value == "" <==> r == Success(None)
    ensures r.Failure? <==> seed.Some? && '@' in seed.value && '@' !in RSplitHead(generated, '@') + ">"
    ensures r.Failure? ==> r.error == MessageIdAssertionError
    ensures r.Success? && r.value.Some? && '@' in seed.value ==>
      r.value.value == RSplitHead(generated, '@') + ">" && '@' in r.value.value
    ensures r.Success? && r.value.Some? && '@' !in seed.value ==> r.value.value == generated
  {
    if seed.None? || seed.value == "" then Success(None)
    else if '@' in seed.value then
      var id := RSplitHead(generated, '@') + ">";
      if '@' in id then Success(Some(id)) else Failure(MessageIdAssertionError)
    else Success(Some(generated))
  }

  /** A header value wrapped in a library Header of the default charset. */
  function Wrapped(s: string, defaultCharset: string): HeaderValue
  {
    Encoded([Chunk(s, defaultCharset)])
  }

  /** An address field: the header `format_addresses` builds for the list. */
  function AddressField(name: string, addresses: seq<Address>, defaultCharset: string): Field
  {
    Field(name, Encoded(AddressListChunks(addresses, defaultCharset)), [])
  }

  /** The address field of a list that is set only when it is not empty. */
  function OptionalAddressFields(name: string, addresses: seq<Address>, defaultCharset: string): seq<Field>
  {
    if |addresses| > 0 then [AddressField(name, addresses, defaultCharset)] else []
  }

  /** The From, To, Cc, Subject and Date fields, in the order set. */
  function HeadFields(
    sender: Address, recipients: seq<Address>, cc: seq<Address>,
    subject: string, defaultCharset: string, epoch: int): seq<Field>
  {
    [AddressField("From", [sender], defaultCharset)]
    + OptionalAddressFields("To", recipients, defaultCharset)
    + OptionalAddressFields("Cc", cc, defaultCharset)
    + [Field("Subject", Wrapped(subject, defaultCharset), []), Field("Date", FormattedDate(epoch), [])]
  }

  /** With recipients and cc addresses, the head fields are From, To, Cc,
      Subject and Date, in that order. */
  lemma HeadFieldOrder(
    sender: Address, recipients: seq<Address>, cc: seq<Address>,
    subject: string, defaultCharset: string, epoch: int)
    requires |recipients| > 0 && |cc| > 0
    ensures FieldNames(HeadFields(sender, recipients, cc, subject, defaultCharset, epoch))
         == ["From", "To", "Cc", "Subject", "Date"]
  {
    var head := HeadFields(sender, recipients, cc, subject, defaultCharset, epoch);
    assert head == [AddressField("From", [sender], defaultCharset),
      AddressField("To", recipients, defaultCharset), AddressField("Cc", cc, defaultCharset),
      Field("Subject", Wrapped(subject, defaultCharset), []), Field("Date", FormattedDate(epoch), [])];
  }

  /** The Message-Id field, when there is an id. */
  function IdFields(msgId: Option<string>): seq<Field>
  {
    if msgId.Some? then [Field("Message-Id", Text(msgId.value), [])] else []
  }

  /** The field one extra `(field, value)` pair sets. */
  function ExtraField(header: (string, HeaderArg), defaultCharset: string): Field
  {
    match header.1
    case HeaderObject(chunks) => Field(header.0, Encoded(chunks), [])
    case TextValue(s) => Field(header.0, Wrapped(s, defaultCharset), [])
  }

  /** The extra fields, one per pair, in order: a Header is used as it is,
      any other value is wrapped in the default charset. */
  function ExtraFields(headers: seq<(string, HeaderArg)>, defaultCharset: string): (fs: seq<Field>)
    ensures |fs| == |headers|
    ensures forall i :: 0 <= i < |headers| ==> fs[i].name == headers[i].0 && fs[i].params == []
    ensures forall i :: 0 <= i < |headers| ==>
      fs[i].value == if headers[i].1.HeaderObject? then Encoded(headers[i].1.chunks) else Wrapped(headers[i].1.s, defaultCharset)
  {
    seq(|headers|, i requires 0 <= i < |headers| => ExtraField(headers[i], defaultCharset))
  }

  /** `complete_mail(message, sender, recipients, subject, default_charset,
      cc, bcc, message_id_string, date, headers)` on the message tree `p`,
      with the id `make_msgid` would generate and the current time given. */
  function Complete(
    p: Part, sender: Address, recipients: seq<Address>, subject: string, defaultCharset: string,
    cc: seq<Address>, bcc: seq<Address>, seed: Option<string>, generated: string,
    date: Option<int>, now: int, headers: seq<(string, HeaderArg)>): (r: Result<Completed, CompleteError>)
    ensures r.Failure? <==> SenderMailFrom(sender).Failure? || MessageIdFor(seed, generated).Failure?
    ensures r.Failure? ==> r.error == if SenderMailFrom(sender).Failure? then SenderIndexError else MessageIdAssertionError
    ensures r.Success? ==>
      r.value.mailFrom == SenderMailFrom(sender).value && r.value.rcptTo == Envelope(recipients, cc, bcc)
      && r.value.msgId == MessageIdFor(seed, generated).value
    ensures r.Success? ==>
      r.value.payload.maintype == p.maintype && r.value.payload.subtype == p.subtype && r.value.payload.body == p.body
      && |p.fields| <= |r.value.payload.fields| && r.value.payload.fields[..|p.fields|] == p.fields
  {
    var mailFrom := SenderMailFrom(sender);
    if mailFrom.Failure? then Failure(SenderIndexError)
    else
      var msgId := MessageIdFor(seed, generated);
      if msgId.Failure? then Failure(MessageIdAssertionError)
      else
        var fields := HeadFields(sender, recipients, cc, subject, defaultCharset, EpochFor(date, now))
          + IdFields(msgId.value) + ExtraFields(headers, defaultCharset);
        Success(Completed(p.(fields := p.fields + fields), mailFrom.value, Envelope(recipients, cc, bcc), msgId.value))
  }

  /** The envelope lists the recipients, then the cc addresses, then the
      bcc addresses, each mapped through `getaddr` in input order. */
  lemma EnvelopeOrder(recipients: seq<Address>, cc: seq<Address>, bcc: seq<Address>)
    ensures Envelope(recipients, cc, bcc) == GetAddrs(recipients) + GetAddrs(cc) + GetAddrs(bcc)
    ensures |Envelope(recipients, cc, bcc)| == |recipients| + |cc| + |bcc|
  {
    GetAddrsAppend(recipients, cc);
    GetAddrsAppend(recipients + cc, bcc);
  }

  /** How often a name occurs among the fields `complete_mail` chooses
      itself: once for From, Subject and Date, once for To when there are
      recipients, once for Cc when there are cc addresses, once for
      Message-Id when there is an id, and never otherwise. */
  lemma {:induction false} HeadFieldCount(
    sender: Address, recipients: seq<Address>, cc: seq<Address>,
    subject: string, defaultCharset: string, epoch: int, msgId: Option<string>, name: string)
    ensures FieldCount(HeadFields(sender, recipients, cc, subject, defaultCharset, epoch) + IdFields(msgId), name)
         == (if name == "From" then 1 else 0)
          + (if name == "To" && |recipients| > 0 then 1 else 0)
          + (if name == "Cc" && |cc| > 0 then 1 else 0)
          + (if name == "Subject" then 1 else 0)
          + (if name == "Date" then 1 else 0)
          + (if name == "Message-Id" && msgId.Some? then 1 else 0)
  {
    var head := HeadFields(sender, recipients, cc, subject, defaultCharset, epoch);
    var from := [head[0]];
    var to := OptionalAddressFields("To", recipients, defaultCharset);
    var copies := OptionalAddressFields("Cc", cc, defaultCharset);
    var subjectField, dateField := Field("Subject", Wrapped(subject, defaultCharset), []), Field("Date", FormattedDate(epoch), []);
    var ids := IdFields(msgId);
    assert head == from + to + copies + [subjectField] + [dateField];
    FieldCountAppend(head, ids, name);
    FieldCountAppend(from + to + copies + [subjectField], [dateField], name);
    FieldCountAppend(from + to + copies, [subjectField], name);
    FieldCountAppend(from + to, copies, name);
    FieldCountAppend(from, to, name);
    FieldCountSingle(from[0], name);
    if to != [] { FieldCountSingle(to[0], name); }
    if copies != [] { FieldCountSingle(copies[0], name); }
    if ids != [] { FieldCountSingle(ids[0], name); }
    FieldCountSingle(subjectField, name);
    FieldCountSingle(dateField, name);
  }

  /** From, Subject and Date are set once each; To exactly when there are
      recipients and Cc exactly when there are cc addresses; Bcc never;
      Message-Id exactly when there is an id. */
  lemma HeaderSelection(
    sender: Address, recipients: seq<Address>, cc: seq<Address>,
    subject: string, defaultCharset: string, epoch: int, msgId: Option<string>)
    ensures var fs := HeadFields(sender, recipients, cc, subject, defaultCharset, epoch) + IdFields(msgId);
      FieldCount(fs, "From") == 1 && FieldCount(fs, "Subject") == 1 && FieldCount(fs, "Date") == 1
      && FieldCount(fs, "To") == (if |recipients| > 0 then 1 else 0)
      && FieldCount(fs, "Cc") == (if |cc| > 0 then 1 else 0)
      && FieldCount(fs, "Bcc") == 0
      && FieldCount(fs, "Message-Id") == (if msgId.Some? then 1 else 0)
  {
    HeadFieldCount(sender, recipients, cc, subject, defaultCharset, epoch, msgId, "From");
    HeadFieldCount(sender, recipients, cc, subject, defaultCharset, epoch, msgId, "To");
    HeadFieldCount(sender, recipients, cc, subject, defaultCharset, epoch, msgId, "Cc");
    HeadFieldCount(sender, recipients, cc, subject, defaultCharset, epoch, msgId, "Bcc");
    HeadFieldCount(sender, recipients, cc, subject, defaultCharset, epoch, msgId, "Subject");
    HeadFieldCount(sender, recipients, cc, subject, defaultCharset, epoch, msgId, "Date");
    HeadFieldCount(sender, recipients, cc, subject, defaultCharset, epoch, msgId, "Message-Id");
  }

  /** Bcc addresses reach only the envelope: two calls that differ only in
      their bcc list fail alike or give the same payload, sender and
      Message-Id, and their recipient lists differ only after the
      recipients and cc addresses, where the bcc addresses follow. */
  lemma BccOnlyInEnvelope(
    p: Part, sender: Address, recipients: seq<Address>, subject: string, defaultCharset: string,
    cc: seq<Address>, bcc: seq<Address>, otherBcc: seq<Address>, seed: Option<string>, generated: string,
    date: Option<int>, now: int, headers: seq<(string, HeaderArg)>)
    ensures var r := Complete(p, sender, recipients, subject, defaultCharset, cc, bcc, seed, generated, date, now, headers);
      var s := Complete(p, sender, recipients, subject, defaultCharset, cc, otherBcc, seed, generated, date, now, headers);
      r.Success? == s.Success?
      && (r.Success? ==>
        r.value.payload == s.value.payload && r.value.mailFrom == s.value.mailFrom && r.value.msgId == s.value.msgId
        && r.value.rcptTo[..|recipients| + |cc|] == s.value.rcptTo[..|recipients| + |cc|]
        && r.value.rcptTo[|recipients| + |cc|..] == GetAddrs(bcc))
  {
    EnvelopeOrder(recipients, cc, bcc);
    EnvelopeOrder(recipients, cc, otherBcc);
    var e, f := Envelope(recipients, cc, bcc), Envelope(recipients, cc, otherBcc);
    assert e[..|recipients| + |cc|] == GetAddrs(recipients) + GetAddrs(cc) == f[..|recipients| + |cc|];
  }

  /** On success the payload is the message it was given with the new
      fields after its own: its type, body and existing fields unchanged. */
  lemma CompleteKeepsMessage(
    p: Part, sender: Address, recipients: seq<Address>, subject: string, defaultCharset: string,
    cc: seq<Address>, bcc: seq<Address>, seed: Option<string>, generated: string,
    date: Option<int>, now: int, headers: seq<(string, HeaderArg)>)
    ensures var r := Complete(p, sender, recipients, subject, defaultCharset, cc, bcc, seed, generated, date, now, headers);
      r.Success? ==>
        r.value.payload.maintype == p.maintype && r.value.payload.subtype == p.subtype
        && r.value.payload.body == p.body
        && r.value.payload.fields == p.fields
          + HeadFields(sender, recipients, cc, subject, defaultCharset, EpochFor(date, now))
          + IdFields(r.value.msgId) + ExtraFields(headers, defaultCharset)
  {
    var r := Complete(p, sender, recipients, subject, defaultCharset, cc, bcc, seed, generated, date, now, headers);
    if r.Success? {
      Regroup(p.fields, HeadFields(sender, recipients, cc, subject, defaultCharset, EpochFor(date, now)),
        IdFields(r.value.msgId), ExtraFields(headers, defaultCharset));
    }
  }

  /** `complete_mail` fails exactly on a bare sender string shorter than two
      characters, or on a Message-Id rewrite that leaves no '@'. */
  lemma CompleteFailures(
    p: Part, sender: Address, recipients: seq<Address>, subject: string, defaultCharset: string,
    cc: seq<Address>, bcc: seq<Address>, seed: Option<string>, generated: string,
    date: Option<int>, now: int, headers: seq<(string, HeaderArg)>)
    ensures var r := Complete(p, sender, recipients, subject, defaultCharset, cc, bcc, seed, generated, date, now, headers);
      (r == Failure(SenderIndexError) <==> sender.Mailbox? && |sender.mailbox| < 2)
      && (r == Failure(MessageIdAssertionError) <==>
        !(sender.Mailbox? && |sender.mailbox| < 2) && seed.Some? && '@' in seed.value
        && '@' !in RSplitHead(generated, '@') + ">")
  {
  }

  /** With the id `make_msgid` builds, `<stamp.seed@host>` for a host name
      free of '@', a seed holding its own domain after an '@' gives the id
      `<stamp.seed>`: the local host name is cut off and the seed's domain
      kept. */
  lemma MessageIdKeepsSeedDomain(stamp: string, seed: string, host: string)
    requires '@' in seed && '@' !in host
    ensures MessageIdFor(Some(seed), "<" + stamp + "." + seed + "@" + host + ">") == Success(Some("<" + stamp + "." + seed + ">"))
  {
    var generated := "<" + stamp + "." + seed + "@" + host + ">";
    var prefix := "<" + stamp + ".";
    var head := prefix + seed;
    var tail := host + ">";
    assert '@' !in tail by {
      assert forall i :: 0 <= i < |host| ==> tail[i] == host[i];
    }
    assert generated == head + ['@'] + tail;
    RSplitHeadAt(head, '@', tail);
    var id := head + ">";
    var k :| 0 <= k < |seed| && seed[k] == '@';
    assert id[|prefix| + k] == '@';
    assert MessageIdFor(Some(seed), generated) == Success(Some(id));
  }

  /** The sender address as written agrees with the one intended exactly
      when the sender is a (name, address) pair. */
  lemma SenderMailFromAgrees(sender: Address)
    ensures SenderMailFrom(sender) == Success(IntendedMailFrom(sender)) <==> sender.Named?
  {
  }

  /** `formataddr` keeps the address whole. */
  lemma FormatAddrShowsAddr(name: string, addr: string)
    ensures Occurs(addr, FormatAddr(name, addr))
  {
    assert OccursAt(addr, addr, 0);
    if name != "" {
      var quotes := if HasSpecial(name) then "\"" else "";
      var front := quotes + EscapeName(name) + quotes + " <";
      assert FormatAddr(name, addr) == front + (addr + ">");
      OccursInPrefixOf(addr, addr, ">");
      OccursInSuffixOf(addr, front, addr + ">");
    }
  }

  /** A two-chunk entry renders as the name, a space and `<addr>`. */
  lemma RenderTwoChunks(c: Chunk, d: Chunk)
    ensures Render([c, d]) == c.text + " " + d.text
  {
    assert [c, d][..1] == [c];
    assert [c][..0] == [];
    assert Texts([c]) == [c.text];
    assert Texts([c, d]) == [c.text, d.text];
    assert [c.text, d.text][1..] == [d.text];
    assert Join([c.text, d.text], " ") == c.text + " " + Join([d.text], " ");
  }

  /** A one-address list holds that address's chunks and nothing else. */
  lemma SingleAddressList(a: Address, charset: string)
    ensures AddressListChunks([a], charset) == AddressChunks(a, charset)
  {
    assert [a][..0] == [];
  }

  /** A name outside us-ascii renders as the name, a space and `<addr>`. */
  lemma NonAsciiNameShowsAddr(name: string, addr: string, charset: string)
    requires !IsAscii(name)
    ensures Occurs(addr, Render(AddressChunks(Named(name, addr), charset)))
  {
    RenderTwoChunks(Chunk(name, charset), Chunk("<" + addr + ">", UsAscii));
    assert Render(AddressChunks(Named(name, addr), charset)) == (name + " " + "<") + (addr + ">");
    assert OccursAt(addr, addr + ">", 0);
    OccursInSuffixOf(addr, name + " " + "<", addr + ">");
  }

  /** A bare mailbox (not two characters long) renders as itself. */
  lemma MailboxShowsItself(s: string, charset: string)
    requires |s| != 2
    ensures Occurs(s, Render(AddressChunks(Mailbox(s), charset)))
  {
    assert AddressChunks(Mailbox(s), charset) == [Chunk(s, UsAscii)];
    assert OccursAt(s, s, 0);
  }

  /** A us-ascii name renders as one `formataddr` chunk. */
  lemma AsciiNameShowsAddr(name: string, addr: string, charset: string)
    requires IsAscii(name)
    ensures Occurs(addr, Render(AddressChunks(Named(name, addr), charset)))
  {
    assert AddressChunks(Named(name, addr), charset) == [Chunk(FormatAddr(name, addr), UsAscii)];
    FormatAddrShowsAddr(name, addr);
  }

  /** The intended sender address is the mailbox shown in the From header:
      it occurs in the rendered chunks of `format_addresses([sender])`
      (except for a bare two-character string, which the header splits). */
  lemma IntendedMailFromInFromHeader(sender: Address, defaultCharset: string)
    requires !(sender.Mailbox? && |sender.mailbox| == 2)
    ensures Occurs(IntendedMailFrom(sender), Render(AddressListChunks([sender], defaultCharset)))
  {
    SingleAddressList(sender, defaultCharset);
    match sender
    case Mailbox(s) =>
      MailboxShowsItself(s, defaultCharset);
    case Named(name, addr) =>
      if IsAscii(name) {
        AsciiNameShowsAddr(name, addr, defaultCharset);
      } else {
        NonAsciiNameShowsAddr(name, addr, defaultCharset);
      }
  }

  /** `getaddr(sender[1])` on the bare sender string `sender@site.example`
      gives its second character, `e`, not the address. */
  lemma BareSenderMailFrom()
    ensures SenderMailFrom(Mailbox("sender@site.example")) == Success("e")
    ensures IntendedMailFrom(Mailbox("sender@site.example")) == "sender@site.example"
  {
  }

  /** The loop over the extra headers. */
  method SetExtraHeaders(message: Message, headers: seq<(string, HeaderArg)>, defaultCharset: string)
    modifies message`fields
    ensures message.fields == old(message.fields) + ExtraFields(headers, defaultCharset)
  {
    var i := 0;
    while i < |headers|
      invariant 0 <= i <= |headers|
      invariant message.fields == old(message.fields) + ExtraFields(headers[..i], defaultCharset)
    {
      var (field, value) := headers[i];
      match value {
        case HeaderObject(chunks) =>
          message.SetItem(field, Encoded(chunks));
        case TextValue(s) =>
          var header := new Header(Some(defaultCharset), None);
          header.Append(s, None);
          assert header.chunks == [Chunk(s, defaultCharset)];
          message.SetItem(field, Encoded(header.chunks));
      }
      assert message.fields == old(message.fields) + ExtraFields(headers[..i], defaultCharset) + [ExtraField(headers[i], defaultCharset)];
      assert ExtraFields(headers[..i + 1], defaultCharset) == ExtraFields(headers[..i], defaultCharset) + [ExtraField(headers[i], defaultCharset)];
      i := i + 1;
    }
    assert headers[..i] == headers;
  }

  /** `message[name] = format_addresses(addresses, header_name, charset)`. */
  method SetAddressHeader(message: Message, name: string, headerName: string, addresses: seq<Address>, defaultCharset: string)
    modifies message`fields
    ensures message.fields == old(message.fields) + [AddressField(name, addresses, defaultCharset)]
  {
    var header := FormatAddresses(addresses, Some(headerName), Some(defaultCharset));
    message.SetItem(name, Encoded(header.chunks));
  }

  /** The same, done only when the list is not empty (`if recipients:`). */
  method SetOptionalAddressHeader(message: Message, name: string, headerName: string, addresses: seq<Address>, defaultCharset: string)
    modifies message`fields
    ensures message.fields == old(message.fields) + OptionalAddressFields(name, addresses, defaultCharset)
  {
    if |addresses| > 0 {
      SetAddressHeader(message, name, headerName, addresses, defaultCharset);
    }
  }

  /** `message['Subject'] = Header(subject, default_charset)`. */
  method SetSubject(message: Message, subject: string, defaultCharset: string)
    modifies message`fields
    ensures message.fields == old(message.fields) + [Field("Subject", Wrapped(subject, defaultCharset), [])]
  {
    var header := new Header(Some(defaultCharset), None);
    header.Append(subject, None);
    assert header.chunks == [Chunk(subject, defaultCharset)];
    message.SetItem("Subject", Encoded(header.chunks));
  }

  /** The From, To, Cc, Subject and Date assignments. */
  method SetHeadHeaders(
    message: Message, sender: Address, recipients: seq<Address>, cc: seq<Address>,
    subject: string, defaultCharset: string, epoch: int)
    modifies message`fields
    ensures message.fields == old(message.fields) + HeadFields(sender, recipients, cc, subject, defaultCharset, epoch)
  {
    ghost var before := message.fields;
    ghost var from := [AddressField("From", [sender], defaultCharset)];
    ghost var to := OptionalAddressFields("To", recipients, defaultCharset);
    ghost var copies := OptionalAddressFields("Cc", cc, defaultCharset);
    ghost var subjectField := Field("Subject", Wrapped(subject, defaultCharset), []);
    ghost var dateField := Field("Date", FormattedDate(epoch), []);
    SetAddressHeader(message, "From", "from", [sender], defaultCharset);
    SetOptionalAddressHeader(message, "To", "to", recipients, defaultCharset);
    assert message.fields == before + from + to;
    SetOptionalAddressHeader(message, "Cc", "cc", cc, defaultCharset);
    assert message.fields == before + from + to + copies;
    SetSubject(message, subject, defaultCharset);
    message.SetItem("Date", FormattedDate(epoch));
    ghost var middle := from + to + copies;
    Regroup(before, from, to, copies);
    assert message.fields == before + middle + [subjectField] + [dateField];
    Regroup(before, middle, [subjectField], [dateField]);
    assert HeadFields(sender, recipients, cc, subject, defaultCharset, epoch) == middle + [subjectField] + [dateField];
  }

  /** The Message-Id step: no field for a missing or empty seed; the
      assertion fires before any field is set; otherwise one Message-Id
      field holding the settled id. */
  method SetMessageId(message: Message, seed: Option<string>, generated: string)
    returns (r: Result<Option<string>, CompleteError>)
    modifies message`fields
    ensures r == MessageIdFor(seed, generated)
    ensures r.Success? ==> message.fields == old(message.fields) + IdFields(r.value)
    ensures r.Failure? ==> message.fields == old(message.fields)
  {
    if seed.None? || seed.value == "" {
      return Success(None);
    }
    var id := generated;
    if '@' in seed.value {
      id := RSplitHead(id, '@') + ">";
      if '@' !in id {
        return Failure(MessageIdAssertionError);
      }
    }
    message.SetItem("Message-Id", Text(id));
    r := Success(Some(id));
  }

  /** `rcpt_to`: the recipients' addresses, extended by the cc and then the
      bcc addresses. */
  method EnvelopeOf(recipients: seq<Address>, cc: seq<Address>, bcc: seq<Address>) returns (rcptTo: seq<string>)
    ensures rcptTo == Envelope(recipients, cc, bcc)
  {
    rcptTo := GetAddrs(recipients);
    rcptTo := rcptTo + GetAddrs(cc);
    rcptTo := rcptTo + GetAddrs(bcc);
    GetAddrsAppend(recipients, cc);
    GetAddrsAppend(recipients + cc, bcc);
  }

  /** Every header assignment of `complete_mail`, in order: the head
      fields, the Message-Id, the extra headers; the assertion on the
      Message-Id stops it after the head fields. */
  method SetFields(
    message: Message, sender: Address, recipients: seq<Address>, cc: seq<Address>,
    subject: string, defaultCharset: string, epoch: int, seed: Option<string>, generated: string,
    headers: seq<(string, HeaderArg)>)
    returns (msgId: Result<Option<string>, CompleteError>)
    modifies message`fields
    ensures msgId == MessageIdFor(seed, generated)
    ensures msgId.Success? ==>
      message.fields == old(message.fields)
        + (HeadFields(sender, recipients, cc, subject, defaultCharset, epoch) + IdFields(msgId.value) + ExtraFields(headers, defaultCharset))
    ensures msgId.Failure? ==> message.fields == old(message.fields) + HeadFields(sender, recipients, cc, subject, defaultCharset, epoch)
  {
    ghost var before := message.fields;
    ghost var head := HeadFields(sender, recipients, cc, subject, defaultCharset, epoch);
    SetHeadHeaders(message, sender, recipients, cc, subject, defaultCharset, epoch);
    ghost var afterHead := message.fields;
    assert afterHead == before + head;
    msgId := SetMessageId(message, seed, generated);
    if msgId.Failure? {
      return;
    }
    ghost var ids := IdFields(msgId.value);
    ghost var afterId := message.fields;
    assert afterId == afterHead + ids;
    ghost var extras := ExtraFields(headers, defaultCharset);
    SetExtraHeaders(message, headers, defaultCharset);
    assert message.fields == afterId + extras;
    Regroup(before, head, ids, extras);
  }

  /** How `Complete` succeeds: the three groups of fields after the message's own. */
  lemma CompleteSucceeds(
    p: Part, sender: Address, recipients: seq<Address>, subject: string, defaultCharset: string,
    cc: seq<Address>, bcc: seq<Address>, seed: Option<string>, generated: string,
    date: Option<int>, now: int, headers: seq<(string, HeaderArg)>)
    requires SenderMailFrom(sender).Success? && MessageIdFor(seed, generated).Success?
    ensures var msgId := MessageIdFor(seed, generated).value;
      Complete(p, sender, recipients, subject, defaultCharset, cc, bcc, seed, generated, date, now, headers)
      == Success(Completed(
        p.(fields := p.fields + (HeadFields(sender, recipients, cc, subject, defaultCharset, EpochFor(date, now))
          + IdFields(msgId) + ExtraFields(headers, defaultCharset))),
        SenderMailFrom(sender).value, Envelope(recipients, cc, bcc), msgId))
  {
  }

  /** `complete_mail`: on success the message holds the new fields after
      its own and the result is `Complete`'s; an IndexError on the sender
      leaves the message untouched, and the Message-Id assertion fires
      after the From to Date fields have been set. */
  method CompleteMail(
    message: Message, sender: Address, recipients: seq<Address>, subject: string, defaultCharset: string,
    cc: seq<Address>, bcc: seq<Address>, seed: Option<string>, generated: string,
    date: Option<int>, now: int, headers: seq<(string, HeaderArg)>)
    returns (r: Result<Completed, CompleteError>)
    modifies message`fields
    ensures r == Complete(old(message.Value()), sender, recipients, subject, defaultCharset, cc, bcc, seed, generated, date, now, headers)
    ensures r.Success? ==> message.Value() == r.value.payload
    ensures r == Failure(SenderIndexError) ==> message.fields == old(message.fields)
    ensures r == Failure(MessageIdAssertionError) ==>
      message.fields == old(message.fields) + HeadFields(sender, recipients, cc, subject, defaultCharset, EpochFor(date, now))
  {
    ghost var original := message.Value();
    var mailFrom := SenderMailFrom(sender);
    if mailFrom.Failure? {
      return Failure(SenderIndexError);
    }
    var rcptTo := EnvelopeOf(recipients, cc, bcc);
    var utcFromEpoch := if date.Some? && date.value != 0 then date.value else now;
    assert utcFromEpoch == EpochFor(date, now);
    var msgId := SetFields(message, sender, recipients, cc, subject, defaultCharset, utcFromEpoch, seed, generated, headers);
    if msgId.Failure? {
      return Failure(MessageIdAssertionError);
    }
    CompleteSucceeds(original, sender, recipients, subject, defaultCharset, cc, bcc, seed, generated, date, now, headers);
    r := Success(Completed(message.Value(), mailFrom.value, rcptTo, msgId.value));
  }

  /** `compose_mail`: `build_mail` without quoted-printable, then
      `complete_mail` on the result. */
  method ComposeMail(
    sender: Address, recipients: seq<Address>, subject: string, defaultCharset: string,
    text: Option<(string, string)>, html: Option<(string, string)>,
    attachments: seq<AttachmentEntry>, embeddeds: seq<EmbeddedEntry>,
    cc: seq<Address>, bcc: seq<Address>, seed: Option<string>, generated: string,
    date: Option<int>, now: int, headers: seq<(string, HeaderArg)>)
    returns (r: Result<Completed, CompleteError>)
    ensures r == Complete(MailBody(text, html, attachments, embeddeds, false),
      sender, recipients, subject, defaultCharset, cc, bcc, seed, generated, date, now, headers)
  {
    var message := BuildMail(text, html, attachments, embeddeds, false);
    r := CompleteMail(message, sender, recipients, subject, defaultCharset, cc, bcc, seed, generated, date, now, headers);
  }
}

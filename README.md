# pyzmail message generation, modelled in Dafny

This project models the message-composing core of pyzmail, `pyzmail/generate.py`. It covers five operations:

- **`format_addresses`** turns an address list into a library `Header`, an ordered list of (text, charset) chunks.
- **The MIME builders** make the leaf parts: `build_mimetext_part`, `build_mime_part`, `Attachment.as_mime_part` and `EmbeddedFile.as_mime_part`.
- **`build_mail`** builds the body tree. The text or HTML body comes first. Both together go in a multipart/alternative (section 5.1.4 of RFC 2046). A multipart/related (RFC 2387) wraps that when there are embedded files. A multipart/mixed (section 5.1.3 of RFC 2046) wraps the result when there are attachments.
- **`complete_mail`** and **`compose_mail`** work out the SMTP envelope and add the header fields.
- **`send_mail`** classifies what the delivery attempt did.

The `email` package is abstracted in these ways:

- A MIME part is a value, `Mime.Part`, and the message objects that the code changes in place are `Mime.Message`.
- A `Header` is the class `Headers.Header`, holding its chunk list.
- The date that `formatdate` would format stays symbolic, as `FormattedDate(epoch)`.
- The id that `make_msgid` would generate and the current time are inputs.
- The payload that `as_string` would serialise is the message tree itself.

Modules:

- `Strings`: Python string helpers: `join`, `rsplit('@', 1)[0]`, `'%s' % n`, the us-ascii test.
- `Headers`: `format_addresses`, with `formataddr` for us-ascii display names and the rendering `str(header)`.
- `Mime`: parts, fields and the message object (`attach`, `message[name] = value`).
- `Builder`: the leaf builders and `build_mail`.
- `Finalizer`: `complete_mail` and `compose_mail`.
- `Sender`: the `except` chain of `send_mail`.
- `Examples`: the doctests and unit-test assertions, restated about the model.

Where the documentation and the code disagree, the model follows the code:

- The separator between addresses is the single chunk `,`. Because chunks are rendered joined by spaces, the rendered header reads `a , b`, not `a, b`.
- `complete_mail` takes the envelope sender from `getaddr(sender[1])`, although the documentation says the sender is a (name, address) pair. See the findings below.
- A falsy `date`, 0 included, falls back to the current time.
- An empty `message_id_string` gives no Message-Id, exactly as None does.

## Model

| member | source | states |
|---|---|---|
| Headers.Header.constructor | pyzmail/generate.py:103 | a new header has no chunks, the given charset (us-ascii when None) and the given header name |
| Headers.Header.Append | pyzmail/generate.py:104-127 | `append` adds one chunk at the end, in the given charset or else the header's own |
| Headers.Unpack | pyzmail/generate.py:109-113 | `name, addr = address` fails exactly for a bare string whose length is not 2; it yields the pair of a (name, address) tuple, and splits a two-character string into its two characters |
| Headers.FormatAddr | pyzmail/generate.py:116-118 | `formataddr` gives the bare address for an empty name, and otherwise ends with ` <addr>` |
| Headers.AddressChunks | pyzmail/generate.py:109-127 | one address gives one or two chunks, the last of them in us-ascii |
| Headers.AppendAddress | pyzmail/generate.py:109-127 | one pass of the loop body appends exactly that address's chunks |
| Headers.AddressListChunks | pyzmail/generate.py:103-129 | the chunk list is empty exactly for an empty address list; otherwise it holds between two and three chunks per address, less one |
| Headers.FormatAddresses | pyzmail/generate.py:103-129 | the returned header is fresh, has the given charset and name, and holds exactly the chunk list of the address list, entry by entry in input order with a separator between consecutive entries |
| Headers.AddressListIsInterleaved | pyzmail/generate.py:104-127 | the chunk list equals an independent reference layout: the entries in order, a us-ascii `,` between each two, none before the first or after the last |
| Headers.AddressListSize | pyzmail/generate.py:104-127 | a non-empty list yields every entry's chunks plus one separator per gap |
| Headers.AddressListEnds | pyzmail/generate.py:103-129 | an empty list gives an empty header; otherwise the header starts with the first address's chunks and ends with the last address's |
| Headers.EntrySize | pyzmail/generate.py:109-127 | each address contributes one or two chunks, two exactly when it unpacks to a display name outside us-ascii |
| Headers.OnlyNamesLeaveUsAscii | pyzmail/generate.py:109-127 | every chunk whose charset is not us-ascii is the non-ASCII display name of some input address; separators, mailboxes and formatted ASCII addresses are us-ascii |
| Headers.SingleChunkEntry | pyzmail/generate.py:109-120 | an address that does not unpack is one verbatim us-ascii chunk; one that unpacks to a us-ascii name is one us-ascii chunk holding its `formataddr` text |
| Headers.NonAsciiNameEntry | pyzmail/generate.py:121-127 | a non-ASCII display name becomes the name in the header charset, then `<addr>` in us-ascii |
| Headers.PlainName | pyzmail/generate.py:115-120 | an alphanumeric display name becomes one us-ascii chunk `name <addr>` |
| Headers.Render | pyzmail/generate.py:100-101 | no chunks render as the empty string and one chunk as its text |
| Headers.RenderShowsEveryChunk | pyzmail/generate.py:100-101 | every chunk's text occurs in the rendered header |
| Headers.RenderSingleChunkList | pyzmail/generate.py:104-107 | when every address is a single chunk, the rendered header is the entry texts joined by ` , ` |
| Mime.Message.Multipart | pyzmail/generate.py:370-375 | a new multipart message holds the given subtype and children and no fields |
| Mime.Message.Attach | pyzmail/generate.py:376-385 | `attach` appends the child at the end of the multipart and changes nothing else |
| Mime.Message.SetItem | pyzmail/generate.py:501-519 | `message[name] = value` appends a field after the existing ones; it never replaces one |
| Builder.BuildMimeTextPart | pyzmail/generate.py:132-150 | a text leaf of the given subtype, content and charset, with no added fields; it carries the explicit quoted-printable override exactly when asked for, never the explicit base64 encoder, and otherwise the charset table's own pick (which may itself be base64 for utf-8 or quoted-printable for iso-8859-1) |
| Builder.BuildMimePart | pyzmail/generate.py:153-162 | the leaf keeps the type and payload; it is a text leaf, with the given charset, exactly when the main type is `text`; it carries the explicit quoted-printable override exactly for a text part that asks for it, and the explicit `encode_base64` exactly when the main type is not `text` (a text leaf otherwise takes its charset's default encoding) |
| Builder.AttachmentAsMimePart | pyzmail/generate.py:192-209 | the leaf keeps the type and payload; a non-text file is a base64 binary leaf, and a text file a text leaf in its own charset, quoted-printable exactly when its own flag asks for it; it carries the single field `Content-Disposition: attachment` with the filename parameter (a bare parameter for None) |
| Builder.InlineDisposition | pyzmail/generate.py:258-261 | the disposition is `inline` exactly when no non-empty filename is set, and otherwise `inline; filename="…"` |
| Builder.EmbeddedAsMimePart | pyzmail/generate.py:249-262 | the leaf keeps the type and payload; a non-text file is a base64 binary leaf, and a text file a text leaf in its own charset with the charset's default encoding, never quoted-printable; it carries exactly `Content-ID: <cid>` (`<None>` without an id) and then the inline disposition |
| Builder.AttachmentEntryPart | pyzmail/generate.py:389-399 | a ready part is attached unchanged; an Attachment object is converted by its own `as_mime_part`, with its own flag; a tuple is the Attachment built from its fields with `build_mail`'s flag, converted, a leaf that is quoted-printable exactly for a text tuple when the flag is set; an EmbeddedFile passed as an attachment is converted by its own `as_mime_part`; every entry but a ready part becomes a leaf |
| Builder.EmbeddedEntryPart | pyzmail/generate.py:376-385 | a ready part is attached unchanged; an EmbeddedFile (or the one made from a tuple) is converted by its own `as_mime_part`, a leaf with Content-ID first, two fields and no quoted-printable; an Attachment passed as an embedded file is converted by its own `as_mime_part`; every entry but a ready part becomes a leaf |
| Builder.AttachmentParts | pyzmail/generate.py:389-399 | one converted part per attachment entry, in input order |
| Builder.EmbeddedParts | pyzmail/generate.py:376-385 | one converted part per embedded entry, in input order |
| Builder.MessageTextLeaves | pyzmail/generate.py:353-372 | the body shows exactly the given text and HTML leaves, text first, or the empty us-ascii text when neither is given; with both it is a multipart/alternative whose children are the text leaf and then the HTML leaf; with one it is that leaf itself; with none it is the empty us-ascii text; it is never a related or mixed multipart |
| Builder.UnwrapMailBody | pyzmail/generate.py:374-400 | the tree is multipart/mixed exactly when there are attachments, and the part inside it is multipart/related exactly when there are embedded files; each wrapper has one child more than its list; the body, the converted embedded files and the converted attachments are recovered in input order |
| Builder.MailBodyLeaves | pyzmail/generate.py:353-402 | the mail's leaves are the body's, then the embedded files', then the attachments', in order |
| Builder.MailBodyPartCount | pyzmail/generate.py:353-402 | with no ready-made multipart among the entries, the mail shows one part per text or HTML input (at least one), plus one per embedded file and one per attachment |
| Builder.MessageText | pyzmail/generate.py:353-372 | the body is a text leaf or a multipart/alternative, never a related or mixed multipart |
| Builder.MailBody | pyzmail/generate.py:374-402 | with attachments the tree is multipart/mixed; with embedded files only, multipart/related; with neither, the body itself |
| Builder.BuildMessageText | pyzmail/generate.py:353-372 | the selected body object is fresh and holds the body-selection tree |
| Builder.AttachEmbeddeds | pyzmail/generate.py:376-386 | the related multipart gains the converted embedded files, in input order, after its existing children |
| Builder.AttachAttachments | pyzmail/generate.py:389-400 | the mixed multipart gains the converted attachments, in input order, after its existing children |
| Builder.WrapEmbeddeds | pyzmail/generate.py:374-386 | with embedded files, a fresh multipart/related holding the body and then the converted files; without any, the body object itself |
| Builder.WrapAttachments | pyzmail/generate.py:387-400 | with attachments, a fresh multipart/mixed holding the inner part and then the converted attachments; without any, the inner object itself |
| Builder.BuildMail | pyzmail/generate.py:353-402 | the returned message is fresh and holds exactly the tree of body, related wrapper and mixed wrapper |
| Finalizer.GetAddrs | pyzmail/generate.py:490-497 | one address per entry, in order: the address of a pair, a bare string as it is |
| Finalizer.GetAddrsAppend | pyzmail/generate.py:497-499 | mapping `getaddr` over a concatenation maps each part |
| Finalizer.EnvelopeOrder | pyzmail/generate.py:497-499 | `rcpt_to` is the recipients, then cc, then bcc, mapped in order with duplicates kept; its length is the sum of the three |
| Finalizer.SenderMailFrom | pyzmail/generate.py:490-496 | `getaddr(sender[1])` fails with an IndexError exactly for a bare sender string shorter than two characters; otherwise it is the address of a pair, and the second character of a bare string |
| Strings.RSplitHead | pyzmail/generate.py:538 | `rsplit('@', 1)[0]` is the whole string when there is no `@`, and otherwise the prefix before the last `@`, with no `@` after it |
| Finalizer.EpochFor | pyzmail/generate.py:515-518 | a given non-zero date is used; a missing date or 0 falls back to the current time |
| Finalizer.MessageIdFor | pyzmail/generate.py:521-541 | no id exactly for a missing or empty seed; the assertion error exactly for a seed holding an `@` when the generated id, cut at its last `@` and closed with `>`, has no `@` left; otherwise, with an `@` in the seed, that cut id, which holds an `@`; without one, the generated id |
| Finalizer.ExtraFields | pyzmail/generate.py:544-548 | one field per extra pair, in order: a Header used as it is, any other value wrapped in the default charset |
| Finalizer.HeadFieldOrder | pyzmail/generate.py:501-519 | with recipients and cc addresses the head fields are From, To, Cc, Subject and Date, in that order |
| Finalizer.HeadFieldCount | pyzmail/generate.py:501-542 | the number of fields of any name that `complete_mail` sets itself |
| Finalizer.HeaderSelection | pyzmail/generate.py:501-542 | From, Subject and Date are set once; To exactly when there are recipients; Cc exactly when there are cc addresses; Bcc never; Message-Id exactly when there is an id |
| Finalizer.BccOnlyInEnvelope | pyzmail/generate.py:497-552 | changing only the bcc list changes neither success nor the payload, sender or Message-Id, and changes the recipient list only after the recipients and cc addresses |
| Finalizer.CompleteKeepsMessage | pyzmail/generate.py:501-550 | on success the payload keeps the message's type, body and fields and appends the head fields, the Message-Id field and the extra fields |
| Finalizer.CompleteFailures | pyzmail/generate.py:496-541 | `complete_mail` fails exactly on a bare sender shorter than two characters, or on a Message-Id rewrite that leaves no `@` |
| Finalizer.MessageIdKeepsSeedDomain | pyzmail/generate.py:524-541 | for an id `<stamp.seed@host>` and a seed with its own domain, the result is `<stamp.seed>`: the host name is cut and the seed's domain kept |
| Finalizer.SenderMailFromAgrees | pyzmail/generate.py:490-496 | the sender address as written equals `getaddr(sender)` exactly when the sender is a pair |
| Finalizer.IntendedMailFromInFromHeader | pyzmail/generate.py:496-507 | `getaddr(sender)` occurs in the rendered From header, for every sender except a bare two-character string |
| Finalizer.BareSenderMailFrom | tests/test_generate.py:59-65 | for the bare sender `sender@site.example` as written, the envelope sender is `e` |
| Finalizer.SetAddressHeader | pyzmail/generate.py:501-513 | appends one field holding the chunk list of the address list |
| Finalizer.SetOptionalAddressHeader | pyzmail/generate.py:508-513 | appends that field only when the list is not empty, and otherwise leaves the fields as they were |
| Finalizer.SetSubject | pyzmail/generate.py:514 | appends Subject as one chunk in the default charset |
| Finalizer.SetHeadHeaders | pyzmail/generate.py:501-519 | appends From, To only with recipients, Cc only with cc, Subject in the default charset and Date, in that order |
| Finalizer.SetMessageId | pyzmail/generate.py:521-542 | settles the id as MessageIdFor does; sets one Message-Id field only when there is an id; sets nothing when the assertion fails |
| Finalizer.SetExtraHeaders | pyzmail/generate.py:544-548 | appends the extra fields in order |
| Finalizer.SetFields | pyzmail/generate.py:501-548 | settles the id as MessageIdFor does; on success appends the head fields, the Message-Id field and the extra fields, in that order; when the assertion fails, only the head fields |
| Finalizer.EnvelopeOf | pyzmail/generate.py:497-499 | `rcpt_to` is the envelope of the recipients, cc and bcc lists |
| Finalizer.Complete | pyzmail/generate.py:490-552 | `complete_mail` fails exactly when the sender lookup or the Message-Id assertion does, with the sender error first; on success it returns the sender address, the envelope and the settled id, and the payload keeps the message's type and body and starts with its fields |
| Finalizer.CompleteMail | pyzmail/generate.py:490-552 | the result is that of `Complete` on the message as it was; on success the message holds the payload; an IndexError leaves the message unchanged; the assertion fires after From to Date are set |
| Finalizer.ComposeMail | pyzmail/generate.py:584-596 | the result is `complete_mail` applied to `build_mail` without quoted-printable |
| Sender.FirstCatching | pyzmail/generate.py:746-762 | the clause found is in the chain and catches the exception; there is none exactly when no clause catches it |
| Sender.FirstCatchingAt | pyzmail/generate.py:746-762 | the clause at a position catches when it catches the class and no clause before it does |
| Sender.Keys | pyzmail/generate.py:750-752 | the refused recipients' addresses, in order |
| Sender.Catches | pyzmail/generate.py:746-761 | no clause catches an exception outside OSError and SMTPException; the clause naming an exception's own class catches it; under Python 2 only that clause and the generic SMTPException clause do |
| Sender.ClauseMessage | pyzmail/generate.py:747-761 | each message ends with the exception's text, except the refused-recipients message, and the sender-refused message ends with the refused sender |
| Sender.SendMail | pyzmail/generate.py:734-766 | a returned mapping is passed through; an error message comes only from a raised exception; an exception propagates unchanged, and one outside OSError and SMTPException always does |
| Sender.Classify | pyzmail/generate.py:734-766 | a returned mapping is passed through; an exception propagates unchanged exactly when no clause catches it |
| Sender.OwnClause | pyzmail/generate.py:746-762 | each class of exception is named by one clause; an exception outside OSError and SMTPException by none |
| Sender.DeliveredIsReturned | pyzmail/generate.py:762-766 | a delivery that returns gives its refusal mapping back unchanged on either runtime |
| Sender.OnlyOtherExceptionsPropagate | pyzmail/generate.py:746-762 | an exception propagates exactly when it is neither an OSError nor an SMTPException |
| Sender.Python2Chain | pyzmail/generate.py:746-762 | under Python 2 the first matching clause names the exception's own class |
| Sender.Python2IsIntended | pyzmail/generate.py:746-762 | under Python 2 every class of exception gets its own message, as the independent per-class table states |
| Sender.Python3CollapsesSmtpErrors | pyzmail/generate.py:746-747 | under Python 3 every SMTP exception gets the `server h:p not responding` message |
| Sender.Python3AuthenticationExample | pyzmail/generate.py:746-749 | under Python 3 a rejected login does not get the authentication message |
| Sender.ReorderedChainCatchesOwnClass | pyzmail/generate.py:746-762 | with `socket.error` moved last, the first matching clause names the exception's own class on either runtime |
| Sender.ReorderedIsIntended | pyzmail/generate.py:746-766 | with `socket.error` moved last, every outcome gets its intended result on either runtime |
| Sender.RefusedRecipientsListed | pyzmail/generate.py:750-752 | the `all recipients refused` message names every refused recipient |
| Examples.RenderedOneMailbox | tests/test_generate.py:14-23 | a bare mailbox renders as itself |
| Examples.RenderedOneName | tests/test_generate.py:24-33 | `('Foo', 'foo@example.com')` renders as `Foo <foo@example.com>` |
| Examples.RenderedTwoMailboxes | tests/test_generate.py:35-38 | two mailboxes render as `foo@example.com , bar@example.com` |
| Examples.RenderedTwoNames | tests/test_generate.py:40-47 | two named addresses render as `Foo <foo@example.com> , Bar <bar@example.com>` |
| Examples.RenderedMixedList | pyzmail/generate.py:100-101 | a mailbox and a named address render as `a@bar.com , John <john@foo.com>` |
| Examples.NonAsciiNameDoctest | pyzmail/generate.py:87-88 | `léo` is kept in iso-8859-1 and `<leo@foo.com>` follows in us-ascii |
| Examples.CompleteMailDoctest | pyzmail/generate.py:469-487 | the envelope is `me@foo.com` to `him@bar.com`, `her@bar.com`; there is no id; the fields are From, To, Cc, Subject, Date, User-Agent in that order |
| Examples.DoctestFrom | pyzmail/generate.py:478 | the From header renders as `Me <me@foo.com>` |
| Examples.DoctestTo | pyzmail/generate.py:479 | the To header renders as `Him <him@bar.com>` |
| Examples.DoctestCc | pyzmail/generate.py:480 | the Cc header renders as `her@bar.com` |
| Examples.BuildMailWithAttachment | tests/test_generate.py:49-71 | the mail has two parts: the quoted-printable text, then the attachment with its `äöü.pdf` filename |
| Examples.BuildMailTestSender | tests/test_generate.py:59-65 | the unit test's mail, completed, is sent from `e` to `recipient@site.example` |

## Left out

- `send_mail2` is not modelled. It connects, starts TLS, logs in and sends, all over the network. Its outcome is an input to `Sender.SendMail`.
- The `email` package's encodings are not modelled: RFC 2047 encoded-words, base64, quoted-printable, boundaries and `as_string`. The model keeps the charset of each header chunk and the transfer encoding of each leaf.
- `Headers.Render` joins every two consecutive chunks with one space. That matches `str(header)` on every chunk list `format_addresses` builds. In general, though, `str(header)` adds no space between two chunks of different charsets other than us-ascii, nor next to us-ascii text that already begins or ends with whitespace, `(`, `)` or `\`, and the model does not capture those cases.
- Header folding to the header name's length is not modelled. The name is recorded only.
- Headers.Header.Append: does not model the library's charset checks. Under Python 3, `Header.append` raises UnicodeEncodeError for text that a charset other than us-ascii cannot encode. It silently re-tags a us-ascii chunk holding non-ASCII text as utf-8. Both reach a bare mailbox, or an `<addr>`, with non-ASCII characters, and through `Header(subject, default_charset)` a subject, all of which the model keeps with the charset given. Charset alias names such as `utf8` for `utf-8` are not resolved either.
- Builder.BuildMimeTextPart: for a charset of None without quoted-printable, `MIMEText` picks us-ascii or utf-8 itself; the model keeps the charset None. It also does not model the TypeError that `email.charset.Charset(None)` raises at pyzmail/generate.py:138 when quoted-printable is asked for without a charset. The model gives a quoted-printable leaf with no charset. This is reachable from a text attachment tuple without a charset when `build_mail` is asked for quoted-printable.
- `formataddr` is modelled for the us-ascii display names it is given. Its check that the address is ASCII, and its IDNA handling, are left out.
- `formatdate`, `time.time()` and `make_msgid` are not computed. The date is kept symbolic, and the current time and the generated id are inputs. Time is a whole number of seconds.
- Non-ASCII filenames in parameters (RFC 2231) are not encoded. A filename parameter is kept as a value.
- `guess_mime_type` and the `from_fp` constructors are not modelled, because they read the filesystem and the mimetypes table.
- The Python 2 branches of `as_mime_part` and `send_mail2` are left out.
- A plain tuple entry of `build_mail` is modelled with all of its fields given. A short tuple that takes the namedtuple defaults is written with the defaults filled in, and a tuple of the wrong length, which raises TypeError, is not modelled. An embedded tuple stands for the EmbeddedFile made from it. An object passed in the other list (an Attachment among the embedded files, an EmbeddedFile among the attachments) is converted by its own `as_mime_part`, as the code's `hasattr` test does.
- The multipart children a `Message` holds are part values, not shared objects, so a later change to a child object is not reflected.
- Finalizer.SenderMailFrom, Finalizer.CompleteMail and Sender.SendMail model the code as written. The corrected behaviour of each is the member named under Findings.

## Findings

| source | as written | input that shows it | evidently intended | confidence | as-written member | corrected member |
|---|---|---|---|---|---|---|
| pyzmail/generate.py:746 | the first clause, `except socket.error`, catches `OSError`; from Python 3.4 on `smtplib.SMTPException` derives from `OSError`, so every SMTP failure is reported as `server h:p not responding` | under Python 3, an SMTPAuthenticationError raised while logging in to `smtp.example:587` | each SMTP failure gets its own message, as under Python 2; the `socket.error` clause belongs after the SMTP clauses | high (not executed) | Sender.Python3CollapsesSmtpErrors | Sender.ReorderedIsIntended |
| pyzmail/generate.py:496 | `mail_from = getaddr(sender[1])` takes the second character of a bare sender string, and raises IndexError for a sender string shorter than two characters | `complete_mail(msg, 'sender@site.example', …)` as in the unit test: the envelope sender is `e` | `getaddr(sender)`: the sender's address, which appears in the From header | high (not executed) | Finalizer.BareSenderMailFrom | Finalizer.IntendedMailFromInFromHeader |

/** Address header formatting: `format_addresses` builds an
    `email.header.Header` chunk by chunk, one entry per address, with a
    us-ascii "," chunk between entries.  A non-ASCII display name goes in a
    chunk of the header's charset (the encoded-word of section 2 of RFC 2047
    is produced from it later, by the mail library); the mailbox is always in
    a us-ascii chunk. */
module Headers {
  import opened Strings

  const UsAscii: string := "us-ascii"

  /** One `(string, charset)` entry of a Header's chunk list. */
  datatype Chunk = Chunk(text: string, charset: string)

  /** The chunk put between two consecutive addresses. */
  const Separator: Chunk := Chunk(",", UsAscii)

  /** An address as the caller passes it: a bare mailbox string, or a
      `(display name, mailbox)` pair. */
  datatype Address = Mailbox(mailbox: string) | Named(name: string, addr: string)

  /** The charset a Header uses when `append` is given none: the one it was
      created with, us-ascii when that was None. */
  function HeaderCharset(charset: Option<string>): string
  {
    if charset.Some? then charset.value else UsAscii
  }

  /** The mail library's header value: an ordered list of chunks. */
  class Header {
    var chunks: seq<Chunk>
    const charset: string
    const headerName: Option<string>

    constructor (charset: Option<string>, headerName: Option<string>)
      ensures this.charset == HeaderCharset(charset)
      ensures this.headerName == headerName
      ensures chunks == []
    {
      this.charset := HeaderCharset(charset);
      this.headerName := headerName;
      chunks := [];
    }

    /** `header.append(s, charset)`; without a charset the header's own is used. */
    method Append(s: string, charset: Option<string>)
      modifies this`chunks
      ensures chunks == old(chunks) + [Chunk(s, if charset.Some? then charset.value else this.charset)]
    {
      chunks := chunks + [Chunk(s, if charset.Some? then charset.value else this.charset)];
    }
  }

  /** Python's `name, addr = address`: it succeeds for a pair, and also for a
      bare string of exactly two characters, which it splits in two. */
  function Unpack(a: Address): (r: Option<(string, string)>)
    ensures r.None? <==> a.Mailbox? && |a.mailbox| != 2
    ensures a.Named? ==> r == Some((a.name, a.addr))
    ensures a.Mailbox? && |a.mailbox| == 2 ==> r == Some(([a.mailbox[0]], [a.mailbox[1]]))
  {
    match a
    case Named(name, addr) => Some((name, addr))
    case Mailbox(s) => if |s| == 2 then Some(([s[0]], [s[1]])) else None
  }

  /** Characters that make `email.utils.formataddr` quote the display name. */
  predicate IsSpecial(c: char)
  {
    c == ']' || c == '[' || c == '\\' || c == '(' || c == ')' || c == '<' || c == '>'
    || c == '@' || c == ',' || c == ':' || c == ';' || c == '"' || c == '.'
  }

  /** Some character of `name` is special. */
  predicate HasSpecial(name: string)
  {
    name != [] && (IsSpecial(name[0]) || HasSpecial(name[1..]))
  }

  /** The display name with backslash and double quote escaped. */
  function EscapeName(name: string): string
  {
    if name == [] then []
    else (if name[0] == '\\' || name[0] == '"' then ['\\', name[0]] else [name[0]]) + EscapeName(name[1..])
  }

  /** `email.utils.formataddr((name, addr))` for a us-ascii name: the bare
      address when the name is empty, otherwise `name <addr>`, the name
      quoted when it holds a special character (section 3.4 of RFC 5322). */
  function FormatAddr(name: string, addr: string): (r: string)
    ensures name == "" ==> r == addr
    ensures name != "" ==> |addr| + 3 <= |r| && r[|r| - |addr| - 3..] == " <" + addr + ">"
  {
    if name == "" then addr
    else
      var quotes := if HasSpecial(name) then "\"" else "";
      var shown := quotes + EscapeName(name) + quotes;
      assert shown + " <" + addr + ">" == shown + (" <" + addr + ">");
      shown + " <" + addr + ">"
  }

  /** The chunks one address contributes. */
  function AddressChunks(a: Address, charset: string): (r: seq<Chunk>)
    ensures 1 <= |r| <= 2
    ensures r[|r| - 1].charset == UsAscii
  {
    match Unpack(a)
    case None => [Chunk(a.mailbox, UsAscii)]
    case Some((name, addr)) =>
      if IsAscii(name) then [Chunk(FormatAddr(name, addr), UsAscii)]
      else [Chunk(name, charset), Chunk("<" + addr + ">", UsAscii)]
  }

  /** The chunks of a whole address list, as the loop appends them. */
  function AddressListChunks(addresses: seq<Address>, charset: string): (r: seq<Chunk>)
    ensures |addresses| == 0 <==> r == []
    ensures |addresses| > 0 ==> 2 * |addresses| - 1 <= |r| <= 3 * |addresses| - 1
  {
    if |addresses| == 0 then []
    else
      AddressListChunks(addresses[..|addresses| - 1], charset)
      + (if |addresses| > 1 then [Separator] else [])
      + AddressChunks(addresses[|addresses| - 1], charset)
  }

  /** The body of `format_addresses`' loop for one address: the bare
      string, the `formataddr` text of a us-ascii name, or the name in the
      header's charset followed by `<addr>`. */
  method AppendAddress(header: Header, address: Address)
    modifies header`chunks
    ensures header.chunks == old(header.chunks) + AddressChunks(address, header.charset)
  {
    match Unpack(address) {
      case None =>
        header.Append(address.mailbox, Some(UsAscii));
      case Some((name, addr)) =>
        if IsAscii(name) {
          header.Append(FormatAddr(name, addr), Some(UsAscii));
        } else {
          header.Append(name, None);
          header.Append("<" + addr + ">", Some(UsAscii));
        }
    }
  }

  /** `format_addresses(addresses, header_name, charset)`. */
  method FormatAddresses(addresses: seq<Address>, headerName: Option<string>, charset: Option<string>)
    returns (header: Header)
    ensures fresh(header)
    ensures header.charset == HeaderCharset(charset) && header.headerName == headerName
    ensures header.chunks == AddressListChunks(addresses, header.charset)
  {
    header := new Header(charset, headerName);
    var i := 0;
    while i < |addresses|
      invariant 0 <= i <= |addresses|
      invariant header.chunks == AddressListChunks(addresses[..i], header.charset)
    {
      if i != 0 {
        header.Append(",", Some(UsAscii));
      }
      AppendAddress(header, addresses[i]);
      assert addresses[..i + 1][..i] == addresses[..i];
      i := i + 1;
    }
    assert addresses[..i] == addresses;
  }

  /** The chunks of each address, one entry per address. */
  function Entries(addresses: seq<Address>, charset: string): (es: seq<seq<Chunk>>)
    ensures |es| == |addresses|
  {
    seq(|addresses|, i requires 0 <= i < |addresses| => AddressChunks(addresses[i], charset))
  }

  /** Reference layout: the entries in order, one separator between each
      two consecutive ones, none before the first or after the last. */
  function Interleave(entries: seq<seq<Chunk>>): seq<Chunk>
  {
    if |entries| == 0 then []
    else if |entries| == 1 then entries[0]
    else entries[0] + [Separator] + Interleave(entries[1..])
  }

  lemma {:induction false} InterleaveSnoc(entries: seq<seq<Chunk>>, e: seq<Chunk>)
    requires |entries| > 0
    ensures Interleave(entries + [e]) == Interleave(entries) + [Separator] + e
  {
    if |entries| > 1 {
      assert (entries + [e])[1..] == entries[1..] + [e];
      InterleaveSnoc(entries[1..], e);
    }
  }

  /** The entries of a list are those of all but its last address, then
      the last address's. */
  lemma EntriesSnoc(addresses: seq<Address>, charset: string)
    requires |addresses| > 0
    ensures Entries(addresses, charset)
         == Entries(addresses[..|addresses| - 1], charset) + [AddressChunks(addresses[|addresses| - 1], charset)]
  {
  }

  /** The loop's chunk list is exactly the reference layout. */
  lemma {:induction false} AddressListIsInterleaved(addresses: seq<Address>, charset: string)
    ensures AddressListChunks(addresses, charset) == Interleave(Entries(addresses, charset))
  {
    var n := |addresses|;
    if n > 1 {
      var front := addresses[..n - 1];
      var last := AddressChunks(addresses[n - 1], charset);
      AddressListIsInterleaved(front, charset);
      assert AddressListChunks(addresses, charset) == AddressListChunks(front, charset) + [Separator] + last;
      EntriesSnoc(addresses, charset);
      InterleaveSnoc(Entries(front, charset), last);
    } else if n == 1 {
      assert addresses[..0] == [];
    }
  }

  /** Each entry of an address list holds one or two chunks, two exactly
      when the address unpacks to a display name outside us-ascii. */
  lemma EntrySize(a: Address, charset: string)
    ensures 1 <= |AddressChunks(a, charset)| <= 2
    ensures |AddressChunks(a, charset)| == 2 <==> Unpack(a).Some? && !IsAscii(Unpack(a).value.0)
  {
  }

  /** Number of chunks: every entry's, plus one separator per gap. */
  function TotalSize(entries: seq<seq<Chunk>>): nat
  {
    if |entries| == 0 then 0 else |entries[0]| + TotalSize(entries[1..])
  }

  lemma {:induction false} InterleaveSize(entries: seq<seq<Chunk>>)
    requires |entries| > 0
    ensures |Interleave(entries)| == TotalSize(entries) + |entries| - 1
  {
    if |entries| > 1 {
      InterleaveSize(entries[1..]);
    }
  }

  /** A non-empty address list has each address's chunks plus one
      separator per gap between consecutive addresses. */
  lemma AddressListSize(addresses: seq<Address>, charset: string)
    requires |addresses| > 0
    ensures |AddressListChunks(addresses, charset)| == TotalSize(Entries(addresses, charset)) + |addresses| - 1
  {
    AddressListIsInterleaved(addresses, charset);
    InterleaveSize(Entries(addresses, charset));
  }

  /** The formatted list begins with the first address's chunks and ends
      with the last address's; an empty list gives an empty header. */
  lemma AddressListEnds(addresses: seq<Address>, charset: string)
    ensures |addresses| == 0 ==> AddressListChunks(addresses, charset) == []
    ensures |addresses| > 0 ==>
      var chunks := AddressListChunks(addresses, charset);
      var first := AddressChunks(addresses[0], charset);
      var last := AddressChunks(addresses[|addresses| - 1], charset);
      |chunks| >= |first| && chunks[..|first|] == first &&
      |chunks| >= |last| && chunks[|chunks| - |last|..] == last
  {
    if |addresses| > 0 {
      AddressListIsInterleaved(addresses, charset);
      InterleaveEnds(Entries(addresses, charset));
    }
  }

  lemma {:induction false} InterleaveEnds(entries: seq<seq<Chunk>>)
    requires |entries| > 0
    ensures var r := Interleave(entries);
      |r| >= |entries[0]| && r[..|entries[0]|] == entries[0] &&
      |r| >= |entries[|entries| - 1]| && r[|r| - |entries[|entries| - 1]|..] == entries[|entries| - 1]
  {
    if |entries| > 1 {
      InterleaveEnds(entries[1..]);
    }
  }

  /** A chunk in a charset other than us-ascii. */
  predicate InNonAsciiCharset(c: Chunk)
  {
    c.charset != UsAscii
  }

  /** The non-ASCII display name of `a`, if it has one. */
  predicate IsNonAsciiNameOf(text: string, a: Address)
  {
    Unpack(a).Some? && !IsAscii(Unpack(a).value.0) && text == Unpack(a).value.0
  }

  /** Only display names that are not ASCII are ever put in a chunk whose
      charset is not us-ascii; separators, bare mailboxes, formatted
      ASCII addresses and every `<mailbox>` are us-ascii. */
  lemma {:induction false} OnlyNamesLeaveUsAscii(addresses: seq<Address>, charset: string, k: nat)
    requires k < |AddressListChunks(addresses, charset)|
    requires InNonAsciiCharset(AddressListChunks(addresses, charset)[k])
    ensures exists i :: 0 <= i < |addresses| && IsNonAsciiNameOf(AddressListChunks(addresses, charset)[k].text, addresses[i])
  {
    var n := |addresses|;
    var front := addresses[..n - 1];
    var head := AddressListChunks(front, charset) + (if n > 1 then [Separator] else []);
    var chunks := AddressListChunks(addresses, charset);
    if k < |AddressListChunks(front, charset)| {
      OnlyNamesLeaveUsAscii(front, charset, k);
      var i :| 0 <= i < |front| && IsNonAsciiNameOf(chunks[k].text, front[i]);
      assert front[i] == addresses[i];
    } else if k < |head| {
      assert false;
    } else {
      assert chunks[k] == AddressChunks(addresses[n - 1], charset)[k - |head|];
      assert IsNonAsciiNameOf(chunks[k].text, addresses[n - 1]);
    }
  }

  /** Every address whose display name is not ASCII contributes exactly
      that name in the header's charset, followed by its mailbox in angle
      brackets in us-ascii. */
  /** A bare string that does not unpack is one verbatim us-ascii chunk; a
      pair (or two-character string) with a us-ascii name is one us-ascii
      chunk holding its `formataddr` text. */
  lemma SingleChunkEntry(a: Address, charset: string)
    ensures Unpack(a).None? ==> AddressChunks(a, charset) == [Chunk(a.mailbox, UsAscii)]
    ensures Unpack(a).Some? && IsAscii(Unpack(a).value.0) ==>
      AddressChunks(a, charset) == [Chunk(FormatAddr(Unpack(a).value.0, Unpack(a).value.1), UsAscii)]
  {
  }

  lemma NonAsciiNameEntry(a: Address, charset: string)
    requires a.Named? && !IsAscii(a.name)
    ensures AddressChunks(a, charset) == [Chunk(a.name, charset), Chunk("<" + a.addr + ">", UsAscii)]
  {
  }

  /** The texts of a chunk list, in order. */
  function Texts(chunks: seq<Chunk>): (ts: seq<string>)
    ensures |ts| == |chunks|
    ensures forall i :: 0 <= i < |chunks| ==> ts[i] == chunks[i].text
  {
    if |chunks| == 0 then [] else Texts(chunks[..|chunks| - 1]) + [chunks[|chunks| - 1].text]
  }

  /** `str(header)`: the chunk texts joined with single spaces, as the
      library does once consecutive chunks of one charset are merged. */
  function Render(chunks: seq<Chunk>): (r: string)
    ensures chunks == [] ==> r == ""
    ensures |chunks| == 1 ==> r == chunks[0].text
  {
    Join(Texts(chunks), " ")
  }

  /** Every chunk's text can be found in the rendered header. */
  lemma RenderShowsEveryChunk(chunks: seq<Chunk>)
    ensures forall i :: 0 <= i < |chunks| ==> Occurs(chunks[i].text, Render(chunks))
  {
    JoinContainsEvery(Texts(chunks), " ");
  }

  lemma {:induction false} JoinSnoc(parts: seq<string>, x: string, sep: string)
    requires |parts| > 0
    ensures Join(parts + [x], sep) == Join(parts, sep) + sep + x
  {
    if |parts| > 1 {
      assert (parts + [x])[1..] == parts[1..] + [x];
      JoinSnoc(parts[1..], x, sep);
    }
  }

  /** The text of an address that forms a single chunk. */
  function EntryText(a: Address, charset: string): string
  {
    AddressChunks(a, charset)[0].text
  }

  /** The entry texts of an address list, in order. */
  function EntryTexts(addresses: seq<Address>, charset: string): seq<string>
  {
    if |addresses| == 0 then []
    else EntryTexts(addresses[..|addresses| - 1], charset) + [EntryText(addresses[|addresses| - 1], charset)]
  }

  /** Appending the separator and a one-chunk entry to a non-empty chunk
      list appends " , " and the entry's text to its rendering. */
  lemma RenderSeparatorStep(front: seq<Chunk>, e: Chunk)
    requires |front| > 0
    ensures Render(front + [Separator] + [e]) == Render(front) + " , " + e.text
  {
    var c1 := front + [Separator];
    var c2 := c1 + [e];
    assert c2[..|c2| - 1] == c1;
    assert c1[..|c1| - 1] == front;
    assert Texts(c2) == Texts(front) + [","] + [e.text];
    JoinSnoc(Texts(front) + [","], e.text, " ");
    JoinSnoc(Texts(front), ",", " ");
  }

  /** When every address is a single chunk, the rendered header is their
      texts separated by " , " (the separator chunk with a space each side). */
  lemma {:induction false} RenderSingleChunkList(addresses: seq<Address>, charset: string)
    requires forall i :: 0 <= i < |addresses| ==> |AddressChunks(addresses[i], charset)| == 1
    ensures Render(AddressListChunks(addresses, charset)) == Join(EntryTexts(addresses, charset), " , ")
  {
    var n := |addresses|;
    if n == 1 {
      RenderSingleChunkOne(addresses, charset);
    } else if n > 1 {
      RenderSingleChunkList(addresses[..n - 1], charset);
      RenderSingleChunkSnoc(addresses, charset);
    }
  }

  /** The base case: one single-chunk address renders as its text. */
  lemma RenderSingleChunkOne(addresses: seq<Address>, charset: string)
    requires |addresses| == 1 && |AddressChunks(addresses[0], charset)| == 1
    ensures Render(AddressListChunks(addresses, charset)) == Join(EntryTexts(addresses, charset), " , ")
  {
    var a := addresses[0];
    assert addresses[..0] == [];
    assert AddressListChunks(addresses[..0], charset) == [];
    assert AddressListChunks(addresses, charset) == AddressChunks(a, charset);
    assert EntryTexts(addresses, charset) == [EntryText(a, charset)];
  }

  /** The step: one more single-chunk address adds " , " and its text. */
  lemma RenderSingleChunkSnoc(addresses: seq<Address>, charset: string)
    requires |addresses| > 1 && |AddressChunks(addresses[|addresses| - 1], charset)| == 1
    requires var front := addresses[..|addresses| - 1];
      Render(AddressListChunks(front, charset)) == Join(EntryTexts(front, charset), " , ")
    ensures Render(AddressListChunks(addresses, charset)) == Join(EntryTexts(addresses, charset), " , ")
  {
    var front, last := addresses[..|addresses| - 1], addresses[|addresses| - 1];
    var fc := AddressListChunks(front, charset);
    assert |fc| > 0 by {
      AddressListEnds(front, charset);
    }
    var e := AddressChunks(last, charset);
    assert e == [e[0]];
    assert AddressListChunks(addresses, charset) == fc + [Separator] + [e[0]];
    RenderSeparatorStep(fc, e[0]);
    JoinSnoc(EntryTexts(front, charset), EntryText(last, charset), " , ");
  }

  lemma OneEntry(a: Address, charset: string)
    requires |AddressChunks(a, charset)| == 1
    ensures Render(AddressListChunks([a], charset)) == EntryText(a, charset)
  {
    RenderSingleChunkList([a], charset);
    assert [a][..0] == [];
  }

  lemma TwoEntries(a: Address, b: Address, charset: string)
    requires |AddressChunks(a, charset)| == 1 && |AddressChunks(b, charset)| == 1
    ensures Render(AddressListChunks([a, b], charset)) == EntryText(a, charset) + " , " + EntryText(b, charset)
  {
    RenderSingleChunkList([a, b], charset);
    assert [a, b][..1] == [a];
    assert [a][..0] == [];
    var ta, tb := EntryText(a, charset), EntryText(b, charset);
    assert EntryTexts([a], charset) == [ta];
    assert EntryTexts([a, b], charset) == EntryTexts([a], charset) + [tb];
    assert [ta, tb][1..] == [tb];
  }

  /** A letter or a digit. */
  predicate IsAlphanumeric(c: char)
  {
    ('a' <= c <= 'z') || ('A' <= c <= 'Z') || ('0' <= c <= '9')
  }

  /** A display name made of letters and digits is written unquoted:
      `name <addr>`. */
  lemma PlainName(name: string, addr: string, charset: string)
    requires name != "" && forall i :: 0 <= i < |name| ==> IsAlphanumeric(name[i])
    ensures AddressChunks(Named(name, addr), charset) == [Chunk(name + " <" + addr + ">", UsAscii)]
  {
    EscapePlain(name);
    assert IsAscii(name);
    assert FormatAddr(name, addr) == name + " <" + addr + ">";
  }

  lemma {:induction false} EscapePlain(name: string)
    requires forall i :: 0 <= i < |name| ==> IsAlphanumeric(name[i])
    ensures EscapeName(name) == name && !HasSpecial(name)
  {
    if name != [] {
      EscapePlain(name[1..]);
    }
  }
}

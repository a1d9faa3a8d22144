/** The slice of the mail library's MIME object model that the generator
    uses: a message is a tree of parts; a leaf carries a text or binary
    payload, a multipart carries its children in order.  The headers that
    the library's constructors add themselves (Content-Type, MIME-Version,
    Content-Transfer-Encoding) are implied by the type, charset and transfer
    encoding kept here; `fields` holds the headers added afterwards, in the
    order they were added. */
module Mime {
  import opened Strings
  import opened Headers

  /** How a payload's transfer encoding was chosen. `QuotedPrintable` is the
      explicit quoted-printable override of `build_mimetext_part`; `Base64`
      is the explicit `encode_base64` call of `build_mime_part`;
      `CharsetDefault` is whatever the library's charset table picks for the
      part's charset, which may itself be base64 (utf-8), quoted-printable
      (iso-8859-1) or 7bit (us-ascii). */
  datatype TransferEncoding = CharsetDefault | QuotedPrintable | Base64

  /** A header parameter such as `filename="x"`; a parameter given the
      value None is written as its bare name. */
  datatype Param = Param(name: string, value: Option<string>)

  /** A header value: a plain string, a library Header (a chunk list), or
      the date the library formats from a time in seconds since the epoch. */
  datatype HeaderValue = Text(s: string) | Encoded(chunks: seq<Chunk>) | FormattedDate(epoch: int)

  datatype Field = Field(name: string, value: HeaderValue, params: seq<Param>)

  datatype Body =
    | TextPayload(content: string, charset: Option<string>, encoding: TransferEncoding)
    | BinaryPayload(data: string, encoding: TransferEncoding)
    | Parts(children: seq<Part>)

  datatype Part = Part(maintype: string, subtype: string, fields: seq<Field>, body: Body)

  predicate IsMultipart(p: Part, subtype: string)
  {
    p.maintype == "multipart" && p.subtype == subtype && p.body.Parts?
  }

  /** A part that is not a multipart. */
  predicate IsLeaf(p: Part)
  {
    !p.body.Parts?
  }

  /** The payload of a leaf. */
  function PayloadData(b: Body): string
    requires !b.Parts?
  {
    match b
    case TextPayload(content, _, _) => content
    case BinaryPayload(data, _) => data
  }

  /** The leaf parts of a tree, left to right: what a reader of the
      message sees as its parts. */
  function Leaves(p: Part): seq<Part>
    decreases p
  {
    match p.body
    case Parts(children) => LeavesOf(children)
    case _ => [p]
  }

  function LeavesOf(ps: seq<Part>): seq<Part>
    decreases ps
  {
    if ps == [] then [] else Leaves(ps[0]) + LeavesOf(ps[1..])
  }

  lemma {:induction false} LeavesOfAppend(ps: seq<Part>, qs: seq<Part>)
    ensures LeavesOf(ps + qs) == LeavesOf(ps) + LeavesOf(qs)
  {
    if ps == [] {
      assert ps + qs == qs;
    } else {
      assert (ps + qs)[1..] == ps[1..] + qs;
      LeavesOfAppend(ps[1..], qs);
    }
  }

  /** A list of parts none of which is a multipart is its own list of leaves. */
  lemma {:induction false} LeavesOfLeaves(ps: seq<Part>)
    requires forall i :: 0 <= i < |ps| ==> !ps[i].body.Parts?
    ensures LeavesOf(ps) == ps
  {
    if ps != [] {
      LeavesOfLeaves(ps[1..]);
    }
  }

  /** How many of the fields carry the given name. */
  function FieldCount(fs: seq<Field>, name: string): nat
  {
    if fs == [] then 0 else (if fs[0].name == name then 1 else 0) + FieldCount(fs[1..], name)
  }

  lemma {:induction false} FieldCountAppend(xs: seq<Field>, ys: seq<Field>, name: string)
    ensures FieldCount(xs + ys, name) == FieldCount(xs, name) + FieldCount(ys, name)
  {
    if xs == [] {
      assert xs + ys == ys;
    } else {
      assert (xs + ys)[1..] == xs[1..] + ys;
      FieldCountAppend(xs[1..], ys, name);
    }
  }

  /** The names of the fields, in order. */
  function FieldNames(fs: seq<Field>): (ns: seq<string>)
    ensures |ns| == |fs|
    ensures forall i :: 0 <= i < |fs| ==> ns[i] == fs[i].name
  {
    seq(|fs|, i requires 0 <= i < |fs| => fs[i].name)
  }

  lemma FieldCountSingle(f: Field, name: string)
    ensures FieldCount([f], name) == if f.name == name then 1 else 0
  {
    assert [f][1..] == [];
  }

  /** A mail library message object, whose headers and payload are set in
      place. */
  class Message {
    var maintype: string
    var subtype: string
    var fields: seq<Field>
    var body: Body

    /** The message as a value. */
    function Value(): Part
      reads this
    {
      Part(maintype, subtype, fields, body)
    }

    /** A message object holding the given part. */
    constructor FromPart(p: Part)
      ensures Value() == p
    {
      maintype, subtype, fields, body := p.maintype, p.subtype, p.fields, p.body;
    }

    /** `MIMEMultipart(subtype, None, children)`. */
    constructor Multipart(subtype: string, children: seq<Part>)
      ensures Value() == Part("multipart", subtype, [], Parts(children))
    {
      maintype, this.subtype, fields, body := "multipart", subtype, [], Parts(children);
    }

    /** `message.attach(part)`: add a child at the end of a multipart. */
    method Attach(p: Part)
      requires body.Parts?
      modifies this`body
      ensures body == Parts(old(body.children) + [p])
    {
      body := Parts(body.children + [p]);
    }

    /** `message[name] = value`: add a header after the existing ones (the
        library never replaces an existing header on assignment). */
    method SetItem(name: string, value: HeaderValue)
      modifies this`fields
      ensures fields == old(fields) + [Field(name, value, [])]
    {
      fields := fields + [Field(name, value, [])];
    }
  }
}

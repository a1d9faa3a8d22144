/** How `send_mail` turns the outcome of a delivery attempt into its
    result: the mapping of refused recipients when the attempt returns, one
    of seven error messages when it raises an exception that one of its
    `except` clauses catches, and the exception itself otherwise.  The
    delivery (`send_mail2`: connecting, TLS, login, sending) is not modelled;
    its outcome is an input.  Which clause catches an exception depends on
    the Python exception hierarchy, which differs between Python 2 and
    Python 3, so the runtime is an input too. */
module Sender {
  import opened Strings

  /** The Python runtime: from Python 3.4 on, `smtplib.SMTPException`
      derives from `OSError`, of which `socket.error` is an alias; in
      Python 2 it derives from `Exception` only. */
  datatype Runtime = Python2 | Python3

  /** An SMTP reply: its code and text. */
  datatype Reply = Reply(code: int, message: string)

  /** The class of an exception the delivery can raise. */
  datatype FailureKind =
    | SocketError                                         // any other OSError: refused connection, timeout, name lookup, TLS
    | AuthenticationError                                 // SMTPAuthenticationError
    | RecipientsRefused(recipients: seq<(string, Reply)>) // SMTPRecipientsRefused, with its recipient mapping
    | SenderRefused(sender: string)                       // SMTPSenderRefused, with the refused sender
    | DataError                                           // SMTPDataError
    | HeloError                                           // SMTPHeloError
    | OtherSmtpError                                      // any other SMTPException
    | OtherException                                      // an exception that is neither an OSError nor an SMTPException

  /** A raised exception: its class and its `'%s' % e` text. */
  datatype RaisedError = RaisedError(kind: FailureKind, text: string)

  /** What the delivery did: return the refused recipients, or raise. */
  datatype Outcome = Delivered(refused: seq<(string, Reply)>) | Raised(failure: RaisedError)

  /** What `send_mail` does: return the refused-recipient mapping, return
      an error message, or let the exception propagate. */
  datatype SendResult = Refusals(refused: seq<(string, Reply)>) | ErrorMessage(text: string) | Propagated(failure: RaisedError)

  /** The `except` clauses of `send_mail`, by the class each names. */
  datatype Clause = SocketClause | AuthClause | RecipientsClause | SenderClause | DataClause | HeloClause | SmtpClause

  /** The exception is an `smtplib.SMTPException`. */
  predicate IsSmtpError(k: FailureKind)
  {
    !k.SocketError? && !k.OtherException?
  }

  /** Whether an `except` clause catches an exception of the given class:
      a clause catches its own class and, for the generic clauses, the
      classes derived from it. */
  predicate Catches(rt: Runtime, c: Clause, k: FailureKind)
    ensures Catches(rt, c, k) ==> !k.OtherException?
    ensures OwnClause(k) == Some(c) ==> Catches(rt, c, k)
    ensures rt == Python2 && Catches(rt, c, k) ==> OwnClause(k) == Some(c) || c == SmtpClause
  {
    match c
    case SocketClause => k.SocketError? || (rt == Python3 && IsSmtpError(k))
    case AuthClause => k.AuthenticationError?
    case RecipientsClause => k.RecipientsRefused?
    case SenderClause => k.SenderRefused?
    case DataClause => k.DataError?
    case HeloClause => k.HeloError?
    case SmtpClause => IsSmtpError(k)
  }

  /** The clauses in the order `send_mail` lists them. */
  const SourceOrder: seq<Clause> := [SocketClause, AuthClause, RecipientsClause, SenderClause, DataClause, HeloClause, SmtpClause]

  /** The first clause of `order` that catches the class, if any. */
  function FirstCatching(rt: Runtime, order: seq<Clause>, k: FailureKind): (r: Option<Clause>)
    ensures r.Some? ==> r.value in order && Catches(rt, r.value, k)
    ensures r.None? <==> forall i :: 0 <= i < |order| ==> !Catches(rt, order[i], k)
  {
    if order == [] then None
    else if Catches(rt, order[0], k) then Some(order[0])
    else FirstCatching(rt, order[1..], k)
  }

  /** The first catching clause is the one at `j` when it catches the class
      and no clause before it does. */
  lemma {:induction false} FirstCatchingAt(rt: Runtime, order: seq<Clause>, k: FailureKind, j: nat)
    requires j < |order| && Catches(rt, order[j], k)
    requires forall i :: 0 <= i < j ==> !Catches(rt, order[i], k)
    ensures FirstCatching(rt, order, k) == Some(order[j])
  {
    if j > 0 {
      assert !Catches(rt, order[0], k);
      FirstCatchingAt(rt, order[1..], k, j - 1);
    }
  }

  /** The recipient addresses of a refusal mapping, in its order. */
  function Keys(recipients: seq<(string, Reply)>): (ks: seq<string>)
    ensures |ks| == |recipients|
    ensures forall i :: 0 <= i < |recipients| ==> ks[i] == recipients[i].0
  {
    seq(|recipients|, i requires 0 <= i < |recipients| => recipients[i].0)
  }

  /** The message a clause builds for the exception it caught. */
  function ClauseMessage(c: Clause, f: RaisedError, host: string, port: int): (r: string)
    requires c == RecipientsClause ==> f.kind.RecipientsRefused?
    requires c == SenderClause ==> f.kind.SenderRefused?
    ensures c != RecipientsClause && c != SenderClause ==> |f.text| < |r| && r[|r| - |f.text|..] == f.text
    ensures c == SenderClause ==> |f.kind.sender| < |r| && r[|r| - |f.kind.sender|..] == f.kind.sender
  {
    match c
    case SocketClause => "server " + host + ":" + IntToDecimal(port) + " not responding: " + f.text
    case AuthClause => "authentication error: " + f.text
    case RecipientsClause => "all recipients refused: " + Join(Keys(f.kind.recipients), ", ")
    case SenderClause => "sender refused: " + f.kind.sender
    case DataClause => "SMTP protocol mismatch: " + f.text
    case HeloClause => "server didn't reply properly to the HELO greeting: " + f.text
    case SmtpClause => "SMTP error: " + f.text
  }

  /** A `try` with the given clauses around the delivery. */
  function Classify(rt: Runtime, order: seq<Clause>, outcome: Outcome, host: string, port: int): (r: SendResult)
    ensures outcome.Delivered? ==> r == Refusals(outcome.refused)
    ensures r.Propagated? <==> outcome.Raised? && FirstCatching(rt, order, outcome.failure.kind).None?
    ensures r.Propagated? ==> r.failure == outcome.failure
  {
    match outcome
    case Delivered(refused) => Refusals(refused)
    case Raised(f) =>
      match FirstCatching(rt, order, f.kind)
      case None => Propagated(f)
      case Some(c) => ErrorMessage(ClauseMessage(c, f, host, port))
  }

  /** `send_mail`'s classification as written. */
  function SendMail(rt: Runtime, outcome: Outcome, host: string, port: int): (r: SendResult)
    ensures outcome.Delivered? ==> r == Refusals(outcome.refused)
    ensures r.ErrorMessage? ==> outcome.Raised?
    ensures r.Propagated? ==> r.failure == outcome.failure
    ensures outcome.Raised? && outcome.failure.kind.OtherException? ==> r == Propagated(outcome.failure)
  {
    Classify(rt, SourceOrder, outcome, host, port)
  }

  /** The clause that names the exception's own class, if any. */
  function OwnClause(k: FailureKind): (r: Option<Clause>)
    ensures r == Some(RecipientsClause) <==> k.RecipientsRefused?
    ensures r == Some(SenderClause) <==> k.SenderRefused?
    ensures r.None? <==> k.OtherException?
  {
    match k
    case SocketError => Some(SocketClause)
    case AuthenticationError => Some(AuthClause)
    case RecipientsRefused(_) => Some(RecipientsClause)
    case SenderRefused(_) => Some(SenderClause)
    case DataError => Some(DataClause)
    case HeloError => Some(HeloClause)
    case OtherSmtpError => Some(SmtpClause)
    case OtherException => None
  }

  /** The result each class of exception is evidently meant to produce:
      the message of the clause naming its own class. */
  function IntendedResult(f: RaisedError, host: string, port: int): SendResult
  {
    match OwnClause(f.kind)
    case None => Propagated(f)
    case Some(c) => ErrorMessage(ClauseMessage(c, f, host, port))
  }

  /** A delivery that returns gives its refusal mapping back unchanged (an
      empty one when every recipient was accepted), on either runtime. */
  lemma DeliveredIsReturned(rt: Runtime, refused: seq<(string, Reply)>, host: string, port: int)
    ensures SendMail(rt, Delivered(refused), host, port) == Refusals(refused)
  {
  }

  /** An exception that is neither an OSError nor an SMTPException is not
      caught, on either runtime; every other one is. */
  lemma {:induction false} OnlyOtherExceptionsPropagate(rt: Runtime, f: RaisedError, host: string, port: int)
    ensures SendMail(rt, Raised(f), host, port).Propagated? <==> f.kind.OtherException?
  {
    if !f.kind.OtherException? {
      var j := if f.kind.SocketError? then 0 else 6;
      assert Catches(rt, SourceOrder[j], f.kind);
      assert FirstCatching(rt, SourceOrder, f.kind).Some?;
    }
  }

  /** Under Python 2 the first clause of the chain as written that
      catches an exception is the one naming its own class. */
  lemma Python2Chain(k: FailureKind)
    ensures FirstCatching(Python2, SourceOrder, k) == OwnClause(k)
  {
    match k
    case SocketError => FirstCatchingAt(Python2, SourceOrder, k, 0);
    case AuthenticationError => FirstCatchingAt(Python2, SourceOrder, k, 1);
    case RecipientsRefused(_) => FirstCatchingAt(Python2, SourceOrder, k, 2);
    case SenderRefused(_) => FirstCatchingAt(Python2, SourceOrder, k, 3);
    case DataError => FirstCatchingAt(Python2, SourceOrder, k, 4);
    case HeloError => FirstCatchingAt(Python2, SourceOrder, k, 5);
    case OtherSmtpError => FirstCatchingAt(Python2, SourceOrder, k, 6);
    case OtherException =>
  }

  /** Under Python 2 the chain as written gives every class its own
      message. */
  lemma Python2IsIntended(f: RaisedError, host: string, port: int)
    ensures SendMail(Python2, Raised(f), host, port) == IntendedResult(f, host, port)
  {
    Python2Chain(f.kind);
  }

  /** Under Python 3 the first clause, `socket.error`, is `OSError` and
      catches every SMTP exception too: each of them becomes the "not
      responding" message. */
  lemma Python3CollapsesSmtpErrors(f: RaisedError, host: string, port: int)
    requires IsSmtpError(f.kind)
    ensures SendMail(Python3, Raised(f), host, port)
         == ErrorMessage("server " + host + ":" + IntToDecimal(port) + " not responding: " + f.text)
  {
  }

  /** A rejected login, under Python 3 as written, reads as a server
      that is not responding. */
  lemma Python3AuthenticationExample()
    ensures SendMail(Python3, Raised(RaisedError(AuthenticationError, "(535, b'bad credentials')")), "smtp.example", 587)
         != IntendedResult(RaisedError(AuthenticationError, "(535, b'bad credentials')"), "smtp.example", 587)
  {
    var f := RaisedError(AuthenticationError, "(535, b'bad credentials')");
    var m := ClauseMessage(SocketClause, f, "smtp.example", 587);
    assert m[0] == 's' && "authentication error: "[0] == 'a';
    assert m[0] != ClauseMessage(AuthClause, f, "smtp.example", 587)[0];
  }

  /** The chain with the `socket.error` clause moved after the SMTP ones. */
  const ReorderedChain: seq<Clause> := [AuthClause, RecipientsClause, SenderClause, DataClause, HeloClause, SmtpClause, SocketClause]

  /** `send_mail` with the corrected clause order. */
  function SendMailReordered(rt: Runtime, outcome: Outcome, host: string, port: int): SendResult
  {
    Classify(rt, ReorderedChain, outcome, host, port)
  }

  /** With the clauses reordered, the first clause that catches an
      exception is the one naming its own class, on either runtime. */
  lemma ReorderedChainCatchesOwnClass(rt: Runtime, k: FailureKind)
    ensures FirstCatching(rt, ReorderedChain, k) == OwnClause(k)
  {
    match k
    case AuthenticationError => FirstCatchingAt(rt, ReorderedChain, k, 0);
    case RecipientsRefused(_) => FirstCatchingAt(rt, ReorderedChain, k, 1);
    case SenderRefused(_) => FirstCatchingAt(rt, ReorderedChain, k, 2);
    case DataError => FirstCatchingAt(rt, ReorderedChain, k, 3);
    case HeloError => FirstCatchingAt(rt, ReorderedChain, k, 4);
    case OtherSmtpError => FirstCatchingAt(rt, ReorderedChain, k, 5);
    case SocketError => FirstCatchingAt(rt, ReorderedChain, k, 6);
    case OtherException =>
  }

  /** With the clauses reordered, every class gets its intended result on
      both runtimes, and returned mappings are passed through. */
  lemma ReorderedIsIntended(rt: Runtime, outcome: Outcome, host: string, port: int)
    ensures outcome.Raised? ==> SendMailReordered(rt, outcome, host, port) == IntendedResult(outcome.failure, host, port)
    ensures outcome.Delivered? ==> SendMailReordered(rt, outcome, host, port) == Refusals(outcome.refused)
  {
    if outcome.Raised? {
      ReorderedChainCatchesOwnClass(rt, outcome.failure.kind);
    }
  }

  /** The "all recipients refused" message names every refused recipient,
      under Python 2 as written and under either runtime once reordered. */
  lemma RefusedRecipientsListed(rt: Runtime, recipients: seq<(string, Reply)>, text: string, host: string, port: int, i: nat)
    requires i < |recipients|
    ensures var out := Raised(RaisedError(RecipientsRefused(recipients), text));
      SendMail(Python2, out, host, port).ErrorMessage? && SendMailReordered(rt, out, host, port).ErrorMessage?
      && Occurs(recipients[i].0, SendMail(Python2, out, host, port).text)
      && SendMailReordered(rt, out, host, port) == SendMail(Python2, out, host, port)
  {
    var f := RaisedError(RecipientsRefused(recipients), text);
    Python2IsIntended(f, host, port);
    ReorderedIsIntended(rt, Raised(f), host, port);
    JoinContainsParts(Keys(recipients), ", ", i);
    OccursInSuffixOf(recipients[i].0, "all recipients refused: ", Join(Keys(recipients), ", "));
  }
}

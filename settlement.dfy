/**
 * The settlement pipeline of the homepage donation form: `_store`, `_charge`,
 * `_send` and `pay_for_open_source`, which runs parse, then store, then
 * charge, then send.
 *
 * The database table of payments and the outgoing email queue are fields of
 * the `App` class. The charge processor is a function parameter: its verdict
 * on an (amount, token) pair is the input, not something the model decides.
 * `Store`, `Charge` and `Send` are proved against the row functions
 * `PendingRecord`, `Settle` and `Invoice`; `Fulfil` and `PayForOpenSource`
 * are proved against `Expected`, whose contract states the pipeline's rules.
 */
module Settlement {
  import opened Wrappers
  import opened Decimal
  import opened Sequences
  import opened Intake

  /** The settlement flag of a stored payment: pending until the one charge attempt decides it. */
  datatype Status = Pending | Succeeded | Failed

  /**
   * What the charge processor answers. A token it refuses outright yields no
   * transaction; a declined and a settled charge both carry one.
   */
  datatype ChargeResult = TokenRejected | Declined(transactionId: string) | Settled(transactionId: string)

  /** The charge processor collaborator, given the amount and the payment token. */
  type Processor = (string, string) -> ChargeResult

  /** A stored payment. It has no field for the payment token, which is never stored. */
  datatype PaymentForOpenSource = PaymentForOpenSource(
    amount: string,
    name: string,
    emailAddress: string,
    onMailingList: bool,
    promotionLogo: Option<ImageAsset>,
    promotionName: string,
    promotionUrl: string,
    promotionTwitter: string,
    promotionMessage: string,
    status: Status,
    transactionId: Option<string>)

  /** A queued email. */
  datatype Email = Email(to: string, subject: string, invoiceUrl: string)

  /** The caller-facing result: error tokens and, on success, the invoice url. */
  datatype PaymentOutcome = PaymentOutcome(errors: seq<string>, invoiceUrl: Option<string>)

  /** What the pipeline did, in order. */
  datatype Event =
    | Inserted(id: nat)
    | ChargeAttempted(id: nat, amount: string, nonce: string)
    | InvoiceSent(id: nat)

  const CHARGING := "charging"
  const INVOICE_SUBJECT := "Invoice from Gratipay"
  const INVOICE_DOCUMENT := "invoice.html"
  const INVOICE_PREFIX := "/browse/payments/"

  /** A stored payment whose flag and transaction id agree: none while pending, one whenever it succeeded. */
  predicate Consistent(p: PaymentForOpenSource) {
    && (p.status == Pending ==> p.transactionId.None?)
    && (p.status == Succeeded ==> p.transactionId.Some?)
  }

  /** The row `_store` inserts for sanitised fields: pending, no transaction, the mailing-list answer as a flag. */
  function PendingRecord(f: Fields): (p: PaymentForOpenSource)
    ensures Consistent(p) && p.status == Pending && p.transactionId.None?
    ensures p.amount == f.amount && p.name == f.name && p.emailAddress == f.emailAddress
    ensures p.onMailingList <==> f.onMailingList == "yes"
    ensures p.promotionLogo == f.promotionLogo && p.promotionName == f.promotionName
    ensures p.promotionUrl == f.promotionUrl && p.promotionTwitter == f.promotionTwitter
    ensures p.promotionMessage == f.promotionMessage
  {
    PaymentForOpenSource(
      f.amount, f.name, f.emailAddress, f.onMailingList == "yes", f.promotionLogo,
      f.promotionName, f.promotionUrl, f.promotionTwitter, f.promotionMessage,
      Pending, None)
  }

  /** The row after the processor's answer has been applied to it. */
  function Settle(p: PaymentForOpenSource, res: ChargeResult): (q: PaymentForOpenSource)
    requires Consistent(p) && p.status == Pending
    ensures Consistent(q) && q.status != Pending
    ensures q.status == Succeeded <==> res.Settled?
    ensures q.transactionId.Some? <==> !res.TokenRejected?
    ensures !res.TokenRejected? ==> q.transactionId == Some(res.transactionId)
    ensures q.(status := p.status, transactionId := p.transactionId) == p
  {
    match res
    case TokenRejected => p.(status := Failed)
    case Declined(t) => p.(status := Failed, transactionId := Some(t))
    case Settled(t) => p.(status := Succeeded, transactionId := Some(t))
  }

  /** The invoice url of the payment stored under `id`; it ends in the invoice document's name. */
  function InvoiceUrl(id: nat): (u: string)
    ensures EndsWith(u, INVOICE_DOCUMENT)
  {
    INVOICE_PREFIX + FromNat(id) + "/" + INVOICE_DOCUMENT
  }

  /** The invoice email `_send` queues for the payment stored under `id`. */
  function Invoice(p: PaymentForOpenSource, id: nat): (e: Email)
    ensures e.to == p.emailAddress && e.subject == INVOICE_SUBJECT
    ensures EndsWith(e.invoiceUrl, INVOICE_DOCUMENT)
  {
    Email(p.emailAddress, INVOICE_SUBJECT, InvoiceUrl(id))
  }

  /** The number of charge attempts in a trace. */
  function ChargeAttempts(events: seq<Event>): (n: nat)
    ensures n <= |events|
  {
    if events == [] then 0
    else (if events[0].ChargeAttempted? then 1 else 0) + ChargeAttempts(events[1..])
  }

  /** Traces count their charge attempts additively. */
  lemma {:induction false} ChargeAttemptsAppend(a: seq<Event>, b: seq<Event>)
    ensures ChargeAttempts(a + b) == ChargeAttempts(a) + ChargeAttempts(b)
  {
    if a != [] {
      assert (a + b)[1..] == a[1..] + b;
      ChargeAttemptsAppend(a[1..], b);
    } else {
      assert a + b == b;
    }
  }

  /** The effect of one run of the pipeline: its result, the rows it inserted, the mail it queued, its trace. */
  datatype Run = Run(
    outcome: Result<PaymentOutcome, Fault>,
    inserted: seq<PaymentForOpenSource>,
    sent: seq<Email>,
    events: seq<Event>)

  /**
   * What `pay_for_open_source` does with the result of parsing a submission
   * when the next row id is `id`: nothing but a fault when a key is missing; nothing but the field
   * errors when a field is invalid; otherwise one stored row, one charge
   * attempt, and an invoice exactly when the charge settled.
   */
  function Expected(parse: Result<Parsed, Fault>, processor: Processor, id: nat): (run: Run)
    // A missing key is a structural fault, with no side effects.
    ensures run.outcome.Failure? <==> parse.Failure?
    ensures run.outcome.Failure? ==>
      run.outcome.error == parse.error && run.inserted == [] && run.sent == [] && run.events == []
    // A row is stored exactly when validation passed.
    ensures |run.inserted| <= 1
    ensures run.inserted != [] <==> parse.Success? && parse.value.errors == []
    // Field errors are reported as they are, with no invoice and no side effects.
    ensures parse.Success? && parse.value.errors != [] ==>
      && run.outcome == Success(PaymentOutcome(parse.value.errors, None))
      && run.sent == [] && run.events == []
    // The stored row is the sanitised submission, settled once by the processor's answer on the sanitised amount and the token.
    ensures run.inserted != [] ==>
      var f := parse.value.fields;
      var res := processor(f.amount, f.paymentMethodNonce);
      && run.inserted[0] == Settle(PendingRecord(f), res)
      && Consistent(run.inserted[0]) && run.inserted[0].status != Pending
      && (run.inserted[0].transactionId.Some? <==> !res.TokenRejected?)
      && ChargeAttempts(run.events) == 1
      && run.events[0] == Inserted(id)
      && run.events[1] == ChargeAttempted(id, f.amount, f.paymentMethodNonce)
      && |run.events| == if run.inserted[0].status == Succeeded then 3 else 2
    // An invoice is sent exactly when the charge succeeded, to the submitted address.
    ensures |run.sent| <= 1
    ensures run.sent != [] <==> run.inserted != [] && run.inserted[0].status == Succeeded
    // The invoice is sent after the charge, as the third and last step.
    ensures run.sent != [] <==> |run.events| == 3 && run.events[2] == InvoiceSent(id)
    ensures run.sent != [] ==>
      run.sent[0].to == run.inserted[0].emailAddress && run.sent[0].subject == INVOICE_SUBJECT
    // The result: no errors and an invoice url on success, the single token "charging" on a failed charge.
    ensures run.inserted != [] && run.inserted[0].status == Succeeded ==>
      run.outcome.Success? && run.outcome.value.errors == [] &&
      run.outcome.value.invoiceUrl == Some(run.sent[0].invoiceUrl) &&
      EndsWith(run.outcome.value.invoiceUrl.value, INVOICE_DOCUMENT)
    ensures run.inserted != [] && run.inserted[0].status == Failed ==>
      run.outcome == Success(PaymentOutcome([CHARGING], None))
    ensures ChargeAttempts(run.events) <= 1
  {
    match parse
    case Failure(fault) => Run(Failure(fault), [], [], [])
    case Success(parsed) =>
      if parsed.errors != [] then Run(Success(PaymentOutcome(parsed.errors, None)), [], [], [])
      else
        var f := parsed.fields;
        var row := Settle(PendingRecord(f), processor(f.amount, f.paymentMethodNonce));
        var charged := [Inserted(id), ChargeAttempted(id, f.amount, f.paymentMethodNonce)];
        assert ChargeAttempts(charged) == 1;
        if row.status == Succeeded then
          var trace := charged + [InvoiceSent(id)];
          assert ChargeAttempts(trace) == 1 by {
            ChargeAttemptsAppend(charged, [InvoiceSent(id)]);
          }
          Run(Success(PaymentOutcome([], Some(InvoiceUrl(id)))), [row], [Invoice(row, id)], trace)
        else
          Run(Success(PaymentOutcome([CHARGING], None)), [row], [], charged)
  }

  /** `Expected` for a submission that passed validation, spelled out step by step. */
  lemma ExpectedWhenValid(parsed: Parsed, processor: Processor, id: nat)
    requires parsed.errors == []
    ensures var f := parsed.fields;
      var row := Settle(PendingRecord(f), processor(f.amount, f.paymentMethodNonce));
      var charged := [Inserted(id), ChargeAttempted(id, f.amount, f.paymentMethodNonce)];
      Expected(Success(parsed), processor, id) ==
        if row.status == Succeeded
        then Run(Success(PaymentOutcome([], Some(InvoiceUrl(id)))), [row], [Invoice(row, id)], charged + [InvoiceSent(id)])
        else Run(Success(PaymentOutcome([CHARGING], None)), [row], [], charged)
  {
  }

  /** The error tokens of any result are either field names in canonical order or the single token "charging". */
  lemma ErrorTokensNeverMixed(raw: Submission, intake: ImageIntake, processor: Processor, id: nat)
    requires Expected(Parse(raw, intake), processor, id).outcome.Success?
    ensures var errors := Expected(Parse(raw, intake), processor, id).outcome.value.errors;
      (SubsequenceOf(errors, ALL) && Distinct(errors)) || errors == [CHARGING]
  {
    ErrorsCanonical(raw, intake);
    var run := Expected(Parse(raw, intake), processor, id);
    if run.inserted != [] && run.inserted[0].status == Succeeded {
      assert run.outcome.value.errors == [];
    }
  }

  /**
   * The application state: the payments table, the email queue and a trace
   * of what the pipeline did. Row ids are positions in `payments`.
   */
  class App {
    var payments: seq<PaymentForOpenSource>
    var emailQueue: seq<Email>
    ghost var trace: seq<Event>

    /** Every stored row has a flag and a transaction id that agree. */
    ghost predicate Valid()
      reads this
    {
      forall i :: 0 <= i < |payments| ==> Consistent(payments[i])
    }

    constructor ()
      ensures Valid()
      ensures payments == [] && emailQueue == [] && trace == []
    {
      payments, emailQueue, trace := [], [], [];
    }

    /** `_store`: insert a pending row for the sanitised fields and return its id. */
    method Store(f: Fields) returns (id: nat)
      requires Valid()
      modifies this
      ensures Valid()
      ensures id == |old(payments)|
      ensures payments == old(payments) + [PendingRecord(f)]
      ensures emailQueue == old(emailQueue)
      ensures trace == old(trace) + [Inserted(id)]
    {
      id := |payments|;
      payments := payments + [PendingRecord(f)];
      trace := trace + [Inserted(id)];
    }

    /**
     * `_charge`: make the one charge attempt for a pending row with the row's
     * amount and the token, then record the processor's answer on that row.
     */
    method Charge(id: nat, nonce: string, processor: Processor)
      requires Valid()
      requires id < |payments| && payments[id].status == Pending
      modifies this
      ensures Valid()
      ensures |payments| == |old(payments)|
      ensures payments == old(payments)[id := Settle(old(payments[id]), processor(old(payments[id]).amount, nonce))]
      ensures payments[id].status == Succeeded <==> processor(old(payments[id]).amount, nonce).Settled?
      ensures emailQueue == old(emailQueue)
      ensures trace == old(trace) + [ChargeAttempted(id, old(payments[id]).amount, nonce)]
    {
      var row := payments[id];
      var res := processor(row.amount, nonce);
      payments := payments[id := Settle(row, res)];
      trace := trace + [ChargeAttempted(id, row.amount, nonce)];
    }

    /** `_send`: queue the invoice email for a stored row. */
    method Send(id: nat)
      requires Valid()
      requires id < |payments|
      modifies this
      ensures Valid()
      ensures payments == old(payments)
      ensures emailQueue == old(emailQueue) + [Invoice(payments[id], id)]
      ensures trace == old(trace) + [InvoiceSent(id)]
    {
      emailQueue := emailQueue + [Invoice(payments[id], id)];
      trace := trace + [InvoiceSent(id)];
    }

    /**
     * The part of `pay_for_open_source` after `_parse`: answer a fault or the
     * field errors as they are, otherwise store, charge and send as `Expected` says.
     */
    method Fulfil(parse: Result<Parsed, Fault>, processor: Processor)
      returns (result: Result<PaymentOutcome, Fault>)
      requires Valid()
      modifies this
      ensures Valid()
      ensures var run := Expected(parse, processor, |old(payments)|);
        && result == run.outcome
        && payments == old(payments) + run.inserted
        && emailQueue == old(emailQueue) + run.sent
        && trace == old(trace) + run.events
    {
      if parse.Failure? {
        return Failure(parse.error);
      }
      if parse.value.errors != [] {
        return Success(PaymentOutcome(parse.value.errors, None));
      }
      var f := parse.value.fields;
      ExpectedWhenValid(parse.value, processor, |payments|);
      var id := Store(f);
      Charge(id, f.paymentMethodNonce, processor);
      ghost var charged := [Inserted(id), ChargeAttempted(id, f.amount, f.paymentMethodNonce)];
      assert trace == old(trace) + charged;
      if payments[id].status == Succeeded {
        Send(id);
        assert trace == old(trace) + (charged + [InvoiceSent(id)]);
        result := Success(PaymentOutcome([], Some(InvoiceUrl(id))));
      } else {
        result := Success(PaymentOutcome([CHARGING], None));
      }
    }

    /** `pay_for_open_source`: parse the submission, then store, charge and send as `Expected` says. */
    method PayForOpenSource(raw: Submission, intake: ImageIntake, processor: Processor)
      returns (result: Result<PaymentOutcome, Fault>)
      requires Valid()
      modifies this
      ensures Valid()
      ensures var run := Expected(Parse(raw, intake), processor, |old(payments)|);
        && result == run.outcome
        && payments == old(payments) + run.inserted
        && emailQueue == old(emailQueue) + run.sent
        && trace == old(trace) + run.events
    {
      var parse := Parse(raw, intake);
      result := Fulfil(parse, processor);
    }
  }
}

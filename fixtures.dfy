/**
 * The homepage test fixtures GOOD, BAD, PARTIAL, SCRUBBED and ALL, and the
 * test cases that pin the pipeline down, stated as lemmas over the model.
 *
 * The image intake and the charge processor are not modelled; each lemma
 * assumes only what the tests rely on of them (a PNG accepted and a GIF
 * rejected; the sandbox's answers for the fixture tokens and amounts).
 */
module Fixtures {
  import opened Wrappers
  import opened Sequences
  import opened Intake
  import opened Settlement

  /** `s` written `n` times in a row (Python's `s * n`). */
  function Repeat(s: string, n: nat): string {
    if n == 0 then "" else Repeat(s, n - 1) + s
  }

  lemma {:induction false} RepeatLength(s: string, n: nat)
    ensures |Repeat(s, n)| == n * |s|
  {
    if n > 0 {
      RepeatLength(s, n - 1);
      assert (n - 1) * |s| + |s| == n * |s|;
    }
  }

  lemma {:induction false} RepeatAdd(s: string, m: nat, n: nat)
    ensures Repeat(s, m + n) == Repeat(s, m) + Repeat(s, n)
    decreases n
  {
    if n > 0 {
      RepeatAdd(s, m, n - 1);
      assert Repeat(s, m + n) == Repeat(s, m + n - 1) + s;
    }
  }

  lemma RepeatThree(s: string)
    ensures Repeat(s, 2) == s + s && Repeat(s, 3) == s + s + s
  {
    assert Repeat(s, 1) == "" + s == s;
  }

  /** Cutting `s * n` after q whole copies and r more characters. */
  lemma {:induction false} RepeatPrefix(s: string, n: nat, q: nat, r: nat)
    requires q < n && r <= |s|
    ensures |Repeat(s, q)| + r <= |Repeat(s, n)|
    ensures Repeat(s, n)[..|Repeat(s, q)| + r] == Repeat(s, q) + s[..r]
  {
    var a, b, c := Repeat(s, q), Repeat(s, n - q), Repeat(s, n - q - 1);
    RepeatAdd(s, q, n - q);
    assert Repeat(s, n) == a + b;
    RepeatAdd(s, 1, n - q - 1);
    assert Repeat(s, 1) == "" + s == s;
    assert b == s + c;
    PrefixOfConcat(a, b, |a| + r);
    PrefixWithin(s, c, r);
  }

  /** Cutting `p + s * n` after the prefix, q whole copies and r more characters. */
  lemma {:induction false} PrefixedRepeatPrefix(p: string, s: string, n: nat, q: nat, r: nat)
    requires q < n && r <= |s|
    ensures |p| + |Repeat(s, q)| + r <= |p + Repeat(s, n)|
    ensures (p + Repeat(s, n))[..|p| + |Repeat(s, q)| + r] == p + Repeat(s, q) + s[..r]
  {
    RepeatPrefix(s, n, q, r);
    PrefixOfConcat(p, Repeat(s, n), |p| + |Repeat(s, q)| + r);
  }

  // ---------------------------------------------------------------------------
  // Fixtures

  /** Stand-ins for the test image and its two derivatives. */
  const ORIGINAL: seq<bv8> := [0x89, 0x50, 0x4e, 0x47]
  const LARGE: seq<bv8> := [0x4c]
  const SMALL: seq<bv8> := [0x53]

  const PNG_LOGO := Upload(ORIGINAL, "logo.png")
  const GIF_LOGO := Upload(ORIGINAL, "logo.gif")
  const PNG_ASSET := ImageAsset(ORIGINAL, LARGE, SMALL, "image/png")

  /** What the tests rely on of the image intake. */
  predicate FixtureIntake(intake: ImageIntake) {
    intake(PNG_LOGO) == Some(PNG_ASSET) && intake(GIF_LOGO) == None
  }

  function Form(amount: string, nonce: string, name: string, email: string, mailing: string,
                promotionName: string, promotionUrl: string, twitter: string, message: string): map<string, string>
  {
    map[AMOUNT := amount, PAYMENT_METHOD_NONCE := nonce, NAME := name, EMAIL_ADDRESS := email,
        ON_MAILING_LIST := mailing, PROMOTION_NAME := promotionName, PROMOTION_URL := promotionUrl,
        PROMOTION_TWITTER := twitter, PROMOTION_MESSAGE := message]
  }

  const GOOD_NONCE := "fake-valid-nonce"
  const GOOD_MESSAGE := "Love me! Love me! Say that you love me!"

  function Good(amount: string, nonce: string): Submission {
    Submission(
      Form(amount, nonce, "Alice Liddell", "alice@example.com", "yes",
           "Wonderland", "http://www.example.com/", "thebestbutter", GOOD_MESSAGE),
      Some(PNG_LOGO))
  }

  const GOOD := Good("1000", GOOD_NONCE)

  const GOOD_FIELDS := Fields(
    "1000", GOOD_NONCE, "Alice Liddell", "alice@example.com", "yes", Some(PNG_ASSET),
    "Wonderland", "http://www.example.com/", "thebestbutter", GOOD_MESSAGE)

  const BAD := Submission(
    Form("1,000",
         Repeat("deadbeef", 5),
         Repeat("Alice Liddell", 20),
         Repeat("alice", 100) + "@example.com",
         "cheese",
         Repeat("Wonderland", 100),
         "http://www.example.com/" + Repeat("cheese", 100),
         Repeat("thebestbutter", 10),
         Repeat("Love me!", 50)),
    Some(GIF_LOGO))

  const SCRUBBED := Fields(
    "1000",
    "",
    Repeat("Alice Liddell", 19) + "Alice Li",
    Repeat("alice", 51),
    "yes",
    None,
    "WonderlandWonderlandWonderlandWo",
    "http://www.example.com/" + Repeat("cheese", 38) + "chee",
    "thebestbutterthebestbutterthebes",
    Repeat("Love me!", 16))

  const PARTIAL := Submission(Form("1000", GOOD_NONCE, "", "", "no", "", "", "", ""), Some(PNG_LOGO))

  const PARTIAL_FIELDS := Fields("1000", GOOD_NONCE, "", "", "no", Some(PNG_ASSET), "", "", "", "")

  // ---------------------------------------------------------------------------
  // Parse

  lemma FormFields(amount: string, nonce: string, name: string, email: string, mailing: string,
                   promotionName: string, promotionUrl: string, twitter: string, message: string)
    ensures var f := Form(amount, nonce, name, email, mailing, promotionName, promotionUrl, twitter, message);
      && (forall k :: k in REQUIRED_KEYS ==> k in f)
      && f[AMOUNT] == amount && f[PAYMENT_METHOD_NONCE] == nonce && f[NAME] == name
      && f[EMAIL_ADDRESS] == email && f[ON_MAILING_LIST] == mailing
      && f[PROMOTION_NAME] == promotionName && f[PROMOTION_URL] == promotionUrl
      && f[PROMOTION_TWITTER] == twitter && f[PROMOTION_MESSAGE] == message
  {
  }

  lemma AmountValues()
    ensures Decimal.IsDigits("1000") && Decimal.Value("1000") == 1000
    ensures Decimal.IsDigits("2000") && Decimal.Value("2000") == 2000
    ensures Decimal.IsDigits("10") && Decimal.Value("10") == 10
    ensures Decimal.IsDigits("9") && Decimal.Value("9") == 9
  {
    assert "1000"[..3] == "100" && "100"[..2] == "10" && "10"[..1] == "1" && "1"[..0] == "";
    assert "2000"[..3] == "200" && "200"[..2] == "20" && "20"[..1] == "2" && "2"[..0] == "";
    assert "9"[..0] == "";
  }

  lemma DigitsOfGrouped()
    ensures !Decimal.IsDigits("1,000") && Decimal.DigitsOf("1,000") == "1000"
  {
    Decimal.DropSeparator('1', ',', "000");
    assert "1,000" == ['1', ','] + "000" && "1000" == ['1'] + "000";
  }

  lemma AmountChecks()
    ensures ValidAmount("1000") && ValidAmount("2000") && ValidAmount("10") && !ValidAmount("9")
    ensures !ValidAmount("1,000") && Decimal.DigitsOf("1,000") == "1000"
  {
    AmountValues();
    DigitsOfGrouped();
  }

  /** The GOOD form with any valid amount and token parses with no errors and keeps every value. */
  lemma {:induction false} ParseGoodForm(amount: string, nonce: string, intake: ImageIntake)
    requires FixtureIntake(intake) && ValidAmount(amount) && |nonce| <= MAX_NONCE_LENGTH
    ensures Parse(Good(amount, nonce), intake) ==
      Success(Parsed(GOOD_FIELDS.(amount := amount, paymentMethodNonce := nonce), []))
  {
    var raw := Good(amount, nonce);
    FormFields(amount, nonce, "Alice Liddell", "alice@example.com", "yes",
               "Wonderland", "http://www.example.com/", "thebestbutter", GOOD_MESSAGE);
    assert HasRequiredKeys(raw);
    assert WellFormed(raw, intake);
    WellFormedSurvives(raw, intake);
  }

  /** test_good_values_survive: GOOD parses with no errors and keeps every value. */
  lemma ParseGood(intake: ImageIntake)
    requires FixtureIntake(intake)
    ensures Parse(GOOD, intake) == Success(Parsed(GOOD_FIELDS, []))
  {
    AmountChecks();
    ParseGoodForm("1000", GOOD_NONCE, intake);
  }

  /** test_partial_info_is_fine: empty text fields and "no" are all valid. */
  lemma ParsePartial(intake: ImageIntake)
    requires FixtureIntake(intake)
    ensures Parse(PARTIAL, intake) == Success(Parsed(PARTIAL_FIELDS, []))
  {
    FormFields("1000", GOOD_NONCE, "", "", "no", "", "", "", "");
    AmountChecks();
    assert HasRequiredKeys(PARTIAL);
    assert WellFormed(PARTIAL, intake);
    WellFormedSurvives(PARTIAL, intake);
  }

  /** The lengths of the BAD values. */
  lemma BadLengths()
    ensures |Repeat("deadbeef", 5)| == 40
    ensures |Repeat("Alice Liddell", 20)| == 260 && |Repeat("Alice Liddell", 19)| == 247
    ensures |Repeat("alice", 100)| == 500 && |Repeat("alice", 51)| == 255
    ensures |Repeat("Wonderland", 100)| == 1000 && |Repeat("Wonderland", 3)| == 30
    ensures |Repeat("cheese", 100)| == 600 && |Repeat("cheese", 38)| == 228
    ensures |Repeat("thebestbutter", 10)| == 130 && |Repeat("thebestbutter", 2)| == 26
    ensures |Repeat("Love me!", 50)| == 400 && |Repeat("Love me!", 16)| == 128
  {
    RepeatLength("deadbeef", 5);
    RepeatLength("Alice Liddell", 20);
    RepeatLength("Alice Liddell", 19);
    RepeatLength("alice", 100);
    RepeatLength("alice", 51);
    RepeatLength("Wonderland", 100);
    RepeatLength("Wonderland", 3);
    RepeatLength("cheese", 100);
    RepeatLength("cheese", 38);
    RepeatLength("thebestbutter", 10);
    RepeatLength("thebestbutter", 2);
    RepeatLength("Love me!", 50);
    RepeatLength("Love me!", 16);
  }

  lemma BadNameTruncation()
    ensures |Repeat("Alice Liddell", 20)| == 260
    ensures Repeat("Alice Liddell", 20)[..255] == Repeat("Alice Liddell", 19) + "Alice Li"
  {
    RepeatLength("Alice Liddell", 20);
    RepeatLength("Alice Liddell", 19);
    RepeatPrefix("Alice Liddell", 20, 19, 8);
  }

  lemma BadEmailTruncation()
    ensures |Repeat("alice", 100)| == 500
    ensures (Repeat("alice", 100) + "@example.com")[..255] == Repeat("alice", 51)
  {
    RepeatLength("alice", 100);
    RepeatLength("alice", 51);
    RepeatPrefix("alice", 100, 51, 0);
    PrefixWithin(Repeat("alice", 100), "@example.com", 255);
  }

  lemma BadPromotionNameTruncation()
    ensures |Repeat("Wonderland", 100)| == 1000
    ensures Repeat("Wonderland", 100)[..32] == "WonderlandWonderlandWonderlandWo"
  {
    var w := "Wonderland";
    RepeatLength(w, 100);
    RepeatLength(w, 3);
    RepeatPrefix(w, 100, 3, 2);
    var three := Repeat(w, 3);
    assert Repeat(w, 100)[..32] == three + w[..2];
    RepeatThree(w);
    WonderlandLiteral();
  }

  lemma WonderlandLiteral()
    ensures "Wonderland" + "Wonderland" + "Wonderland" + "Wonderland"[..2] == "WonderlandWonderlandWonderlandWo"
  {
    assert "Wonderland"[..2] == "Wo";
  }

  lemma BadPromotionUrlTruncation()
    ensures |Repeat("cheese", 100)| == 600
    ensures ("http://www.example.com/" + Repeat("cheese", 100))[..255] ==
      "http://www.example.com/" + Repeat("cheese", 38) + "chee"
  {
    RepeatLength("cheese", 100);
    RepeatLength("cheese", 38);
    PrefixedRepeatPrefix("http://www.example.com/", "cheese", 100, 38, 4);
  }

  lemma BadPromotionTwitterTruncation()
    ensures |Repeat("thebestbutter", 10)| == 130
    ensures Repeat("thebestbutter", 10)[..32] == "thebestbutterthebestbutterthebes"
  {
    var t := "thebestbutter";
    RepeatLength(t, 10);
    RepeatLength(t, 2);
    RepeatPrefix(t, 10, 2, 6);
    var two := Repeat(t, 2);
    assert Repeat(t, 10)[..32] == two + t[..6];
    RepeatThree(t);
    TwitterLiteral();
  }

  lemma TwitterLiteral()
    ensures "thebestbutter" + "thebestbutter" + "thebestbutter"[..6] == "thebestbutterthebestbutterthebes"
  {
    assert "thebestbutter"[..6] == "thebes";
  }

  lemma BadPromotionMessageTruncation()
    ensures |Repeat("Love me!", 50)| == 400
    ensures Repeat("Love me!", 50)[..128] == Repeat("Love me!", 16)
  {
    RepeatLength("Love me!", 50);
    RepeatLength("Love me!", 16);
    RepeatPrefix("Love me!", 50, 16, 0);
  }

  /** test_bad_values_get_scrubbed_and_flagged: BAD scrubs to SCRUBBED and flags every field, in order. */
  lemma ParseBad(intake: ImageIntake)
    requires FixtureIntake(intake)
    ensures Parse(BAD, intake) == Success(Parsed(SCRUBBED, ALL))
  {
    FormFields("1,000", Repeat("deadbeef", 5), Repeat("Alice Liddell", 20),
               Repeat("alice", 100) + "@example.com", "cheese", Repeat("Wonderland", 100),
               "http://www.example.com/" + Repeat("cheese", 100), Repeat("thebestbutter", 10),
               Repeat("Love me!", 50));
    AmountChecks();
    BadLengths();
    BadNameTruncation();
    BadEmailTruncation();
    BadPromotionNameTruncation();
    BadPromotionUrlTruncation();
    BadPromotionTwitterTruncation();
    BadPromotionMessageTruncation();
    assert HasRequiredKeys(BAD);
    assert AllMalformed(BAD, intake);
    AllInvalidFlagsAll(BAD, intake);
  }

  /** test_10_dollar_minimum: "9" is flagged as the only error, "10" is accepted. */
  lemma TenDollarMinimum(intake: ImageIntake)
    requires FixtureIntake(intake)
    ensures Parse(Good("9", GOOD_NONCE), intake).Success?
    ensures Parse(Good("9", GOOD_NONCE), intake).value.errors == [AMOUNT]
    ensures Parse(Good("10", GOOD_NONCE), intake).Success?
    ensures Parse(Good("10", GOOD_NONCE), intake).value.errors == []
  {
    AmountChecks();
    ParseGoodForm("10", GOOD_NONCE, intake);
    var raw := Good("9", GOOD_NONCE);
    FormFields("9", GOOD_NONCE, "Alice Liddell", "alice@example.com", "yes",
               "Wonderland", "http://www.example.com/", "thebestbutter", GOOD_MESSAGE);
    assert HasRequiredKeys(raw);
    ErrorsNameExactlyTheInvalidFields(raw, intake);
    var errors := Parse(raw, intake).value.errors;
    ErrorsCanonical(raw, intake);
    assert AMOUNT in errors;
    OnlyAmount(errors);
  }

  /** A canonically ordered error list that names "amount" and no other field is ["amount"]. */
  lemma OnlyAmount(errors: seq<string>)
    requires SubsequenceOf(errors, ALL) && Distinct(errors) && AMOUNT in errors
    requires PAYMENT_METHOD_NONCE !in errors && NAME !in errors && EMAIL_ADDRESS !in errors
    requires ON_MAILING_LIST !in errors && PROMOTION_LOGO !in errors && PROMOTION_NAME !in errors
    requires PROMOTION_URL !in errors && PROMOTION_TWITTER !in errors && PROMOTION_MESSAGE !in errors
    ensures errors == [AMOUNT]
  {
    SubsequenceMembers(errors, ALL);
    forall k | 0 <= k < |errors| ensures errors[k] == AMOUNT {
      assert errors[k] in errors && errors[k] in ALL;
    }
  }

  /** test_really_bad_post_gets_plain_400: an empty form is a structural fault naming "amount". */
  lemma EmptyFormIsMissingAmount(intake: ImageIntake)
    ensures Parse(Submission(map[], None), intake) == Failure(MissingKey(AMOUNT))
  {
    assert FirstMissing(REQUIRED_KEYS, map[]) == 0;
  }

  // ---------------------------------------------------------------------------
  // The pipeline

  /** What the tests rely on of the sandbox processor. */
  predicate FixtureProcessor(processor: Processor) {
    && processor("1000", GOOD_NONCE).Settled?
    && processor("1000", "deadbeef").TokenRejected?
    && processor("2000", GOOD_NONCE).Declined?
  }

  /** test_pays_for_open_source: GOOD is stored, settles, and returns an invoice url. */
  lemma PaysForOpenSource(intake: ImageIntake, processor: Processor, id: nat)
    requires FixtureIntake(intake) && FixtureProcessor(processor)
    ensures var run := Expected(Parse(GOOD, intake), processor, id);
      && run.outcome.Success? && run.outcome.value.errors == []
      && run.outcome.value.invoiceUrl.Some?
      && EndsWith(run.outcome.value.invoiceUrl.value, INVOICE_DOCUMENT)
      && |run.inserted| == 1 && run.inserted[0].status == Succeeded
      && run.inserted[0].onMailingList
      && run.sent == [Email("alice@example.com", INVOICE_SUBJECT, InvoiceUrl(id))]
  {
    ParseGood(intake);
  }

  /** test_flags_errors_and_doesnt_store: BAD yields all field errors, no url, and no row. */
  lemma FlagsErrorsAndDoesntStore(intake: ImageIntake, processor: Processor, id: nat)
    requires FixtureIntake(intake)
    ensures var run := Expected(Parse(BAD, intake), processor, id);
      run.outcome == Success(PaymentOutcome(ALL, None)) && run.inserted == [] && run.sent == []
  {
    ParseBad(intake);
  }

  /** test_flags_errors_with_no_transaction_id: a token the processor refuses leaves no transaction id. */
  lemma FlagsErrorsWithNoTransactionId(intake: ImageIntake, processor: Processor, id: nat)
    requires FixtureIntake(intake) && FixtureProcessor(processor)
    ensures var run := Expected(Parse(Good("1000", "deadbeef"), intake), processor, id);
      && run.outcome == Success(PaymentOutcome([CHARGING], None))
      && |run.inserted| == 1 && run.inserted[0].status == Failed
      && run.inserted[0].transactionId.None?
      && run.sent == []
  {
    AmountChecks();
    ParseGoodForm("1000", "deadbeef", intake);
  }

  /** test_flags_failures_with_transaction_id: a declined charge is recorded with its transaction id. */
  lemma FlagsFailuresWithTransactionId(intake: ImageIntake, processor: Processor, id: nat)
    requires FixtureIntake(intake) && FixtureProcessor(processor)
    ensures var run := Expected(Parse(Good("2000", GOOD_NONCE), intake), processor, id);
      && run.outcome == Success(PaymentOutcome([CHARGING], None))
      && |run.inserted| == 1 && run.inserted[0].status == Failed
      && run.inserted[0].transactionId.Some?
      && run.sent == []
  {
    AmountChecks();
    ParseGoodForm("2000", GOOD_NONCE, intake);
  }

  /** test_partial_post_is_fine: PARTIAL settles and returns an invoice url. */
  lemma PartialPostIsFine(intake: ImageIntake, processor: Processor, id: nat)
    requires FixtureIntake(intake) && FixtureProcessor(processor)
    ensures var run := Expected(Parse(PARTIAL, intake), processor, id);
      && run.outcome.Success? && run.outcome.value.errors == []
      && EndsWith(run.outcome.value.invoiceUrl.value, INVOICE_DOCUMENT)
      && |run.inserted| == 1 && run.inserted[0].status == Succeeded
  {
    ParsePartial(intake);
  }

  /** GoodCharge.test_bad_nonce_fails: charging a stored payment with a token the processor refuses fails it. */
  method ChargeWithBadNonceFails(processor: Processor) returns (row: PaymentForOpenSource)
    requires FixtureProcessor(processor)
    ensures row.status == Failed && row.transactionId.None?
  {
    var app := new App();
    var id := app.Store(GOOD_FIELDS);
    app.Charge(id, "deadbeef", processor);
    row := app.payments[id];
  }

  /** BadCharge.test_good_nonce_succeeds: charging a stored payment with a valid token settles it. */
  method ChargeWithGoodNonceSucceeds(processor: Processor) returns (row: PaymentForOpenSource)
    requires FixtureProcessor(processor)
    ensures row.status == Succeeded && row.transactionId.Some?
  {
    var app := new App();
    var id := app.Store(GOOD_FIELDS);
    app.Charge(id, GOOD_NONCE, processor);
    row := app.payments[id];
  }

  /** Store.test_stores_info: storing the parsed GOOD fields records the mailing-list answer as true. */
  method StoreKeepsMailingList(intake: ImageIntake) returns (stored: seq<PaymentForOpenSource>)
    requires FixtureIntake(intake)
    ensures |stored| == 1 && stored[0].onMailingList
    ensures stored[0].status == Pending && stored[0].emailAddress == "alice@example.com"
  {
    ParseGood(intake);
    var parsed := Parse(GOOD, intake);
    var app := new App();
    var id := app.Store(parsed.value.fields);
    stored := app.payments;
  }

  /** Send.test_sends_invoice_link: sending for a stored GOOD payment queues its invoice to alice. */
  method SendQueuesInvoice(intake: ImageIntake) returns (queued: seq<Email>)
    requires FixtureIntake(intake)
    ensures |queued| == 1
    ensures queued[0].to == "alice@example.com" && queued[0].subject == "Invoice from Gratipay"
    ensures EndsWith(queued[0].invoiceUrl, INVOICE_DOCUMENT)
  {
    ParseGood(intake);
    var parsed := Parse(GOOD, intake);
    var app := new App();
    var id := app.Store(parsed.value.fields);
    app.Send(id);
    queued := app.emailQueue;
  }

  /** The same test on the imperative pipeline: a fresh application pays for GOOD and stores a settled row. */
  method PayForGoodOnFreshApp(intake: ImageIntake, processor: Processor)
    returns (result: Result<PaymentOutcome, Fault>, stored: seq<PaymentForOpenSource>, queued: seq<Email>)
    requires FixtureIntake(intake) && FixtureProcessor(processor)
    ensures result.Success? && result.value.errors == []
    ensures result.value.invoiceUrl.Some? && EndsWith(result.value.invoiceUrl.value, INVOICE_DOCUMENT)
    ensures |stored| == 1 && stored[0].status == Succeeded
    ensures |queued| == 1 && queued[0].to == "alice@example.com" && queued[0].subject == "Invoice from Gratipay"
  {
    var app := new App();
    PaysForOpenSource(intake, processor, 0);
    result := app.PayForOpenSource(GOOD, intake, processor);
    stored, queued := app.payments, app.emailQueue;
  }

  /** test_flags_errors_and_doesnt_store on the imperative pipeline. */
  method PayForBadOnFreshApp(intake: ImageIntake, processor: Processor)
    returns (result: Result<PaymentOutcome, Fault>, stored: seq<PaymentForOpenSource>)
    requires FixtureIntake(intake)
    ensures result == Success(PaymentOutcome(ALL, None))
    ensures stored == []
  {
    var app := new App();
    FlagsErrorsAndDoesntStore(intake, processor, 0);
    result := app.PayForOpenSource(BAD, intake, processor);
    stored := app.payments;
  }
}

# Gratipay "pay for open source" donation pipeline, modelled in Dafny

This project models the donation form behind gratipay.com's homepage. A donor
submits ten fields: an amount, a payment token (the Braintree
"payment method nonce"), a name, an email address, a mailing-list answer, a
logo upload, and three promotion text fields plus a message. The pipeline
`pay_for_open_source` runs four steps:

1. `_parse` validates and scrubs the submission. Each field is checked on its
   own. A field that breaks its rule is replaced by a safe value, and its
   name is added to an error list. The error list is always in the canonical
   field order `ALL`.
2. `_store` inserts a pending payment row. The row never holds the payment token.
3. `_charge` makes one charge attempt. It records the processor's answer on
   the row: the settlement flag and, when the processor engaged, a
   transaction id.
4. `_send` queues an invoice email, only when the charge succeeded.

A submission with any field error is answered with its error list and
nothing is stored. A missing text key is a structural fault, not a field
error. A failed charge is answered with the single token `charging`.

The implementation file `gratipay/homepage.py` is not part of this model. The
behaviour modelled is what the homepage test module
`tests/py/test_www_homepage.py` pins down with its fixtures and assertions.
Where those leave a rule open, the model makes its own choice, inside what the
fixtures allow. Each such choice is listed under "Left out".

Files:

- `wrappers.dfy`: `Option` and `Result`.
- `decimal.dfy`: digit strings. Their value, the digits of any string, and the canonical spelling of a number.
- `sequences.dfy`: `Distinct`, `SubsequenceOf` and prefix facts. They are used to state "canonical order, no duplicates".
- `intake.dfy`: module `Intake`, the validator `Parse` (`_parse`) and its properties. It is pure.
- `settlement.dfy`: module `Settlement`. It holds the class `App` with the payments table, the email queue and a ghost event trace (proof bookkeeping only: the system keeps no such record), and its methods `Store`, `Charge`, `Send`, `Fulfil` and `PayForOpenSource`. `Store`, `Charge` and `Send` are each proved against a row function: `PendingRecord`, `Settle` or `Invoice`. `Fulfil` (everything after parsing) and `PayForOpenSource` are proved against the pure function `Expected`, whose contract states the pipeline's rules.
- `fixtures.dfy`: module `Fixtures`, with the test fixtures `GOOD`, `BAD`, `PARTIAL` and `SCRUBBED` and the test cases proved as lemmas.

The image intake and the charge processor are function parameters. The
fixture lemmas assume only what the tests rely on: a PNG upload is accepted,
a GIF upload is rejected, and the sandbox answers for the fixture tokens and
amounts.

## Model

| member | source | states |
|---|---|---|
| Intake.CheckAmount | tests/py/test_www_homepage.py:106-113 | amount accepted iff a non-empty digit string worth at least 10; the kept value is always the submitted digits, so "1,000" is flagged yet becomes "1000" |
| Intake.CheckNonce | tests/py/test_www_homepage.py:38-39 | token accepted iff at most MAX_NONCE_LENGTH long; a rejected token becomes "" and so differs from what was sent |
| Intake.CheckLength | tests/py/test_www_homepage.py:60-70 | a bounded text field is accepted iff within its limit; otherwise it is cut to exactly the limit, a proper prefix of the raw value |
| Intake.CheckMailingList | tests/py/test_www_homepage.py:42-64 | on_mailing_list accepted iff "yes" or "no"; anything else becomes "yes"; the kept value is always "yes" or "no" |
| Intake.CheckLogo | tests/py/test_www_homepage.py:85-97 | no upload is fine; an upload the image intake rejects is flagged and becomes None; an accepted one becomes the intake's asset |
| Intake.Flagged | tests/py/test_www_homepage.py:71-73 | the error list is a subsequence of the field list; empty iff every verdict passed; as long as the field list iff every verdict failed |
| Intake.FlaggedAt | tests/py/test_www_homepage.py:71-73 | with distinct names, a name is in the error list iff its own verdict failed |
| Intake.FirstMissing | tests/py/test_www_homepage.py:209-213 | the position of the first absent key: all keys before it present, the key at it absent |
| Intake.Parse | tests/py/test_www_homepage.py:83-113 | a structural fault iff a text key is absent, naming an absent key; otherwise the errors are a subsequence of ALL |
| Intake.FaultNamesFirstMissingKey | tests/py/test_www_homepage.py:209-213 | the fault names the first absent key in canonical order ("amount" for an empty form) |
| Intake.ErrorsCanonical | tests/py/test_www_homepage.py:92-97 | the error list is in canonical order and names no field twice |
| Intake.ErrorsNameExactlyTheInvalidFields | tests/py/test_www_homepage.py:83-113 | each of the ten field names is in the error list iff that field's raw value breaks its rule |
| Intake.WellFormedSurvives | tests/py/test_www_homepage.py:85-104 | no errors iff every field is well formed, and then every text field comes back unchanged and the logo is the intake's asset |
| Intake.EachFieldOnItsOwn | tests/py/test_www_homepage.py:106-113 | for any mix of valid and invalid fields: each field obeying its rule comes back as submitted, and each field breaking it gets its own fallback (digits only, "", a cut to the limit, "yes", no logo) |
| Intake.AllInvalidFlagsAll | tests/py/test_www_homepage.py:92-97 | every field malformed gives errors == ALL; each over-long value is cut to exactly its limit and differs from the original; the token is emptied; the mailing-list answer becomes "yes"; the logo is dropped; the amount changes iff it held a non-digit |
| Intake.ScrubbedIsSanitary | tests/py/test_www_homepage.py:60-70 | every scrubbed value obeys its field's rule (the amount is at least a digit string) |
| Intake.ResubmitSanitary | tests/py/test_www_homepage.py:60-70 | resubmitting rule-abiding values keeps them all and flags at most the amount |
| Intake.ScrubIdempotent | tests/py/test_www_homepage.py:60-70 | scrubbing is idempotent: re-parsing the scrubbed values changes none of them and flags at most an amount below 10 |
| Decimal.DigitsOf | tests/py/test_www_homepage.py:60 | the result is all digits, contains exactly the digit characters of the input, equals the input iff the input is all digits, and is the character itself or empty for a one-character input |
| Decimal.DigitsOfAppend | tests/py/test_www_homepage.py:60 | the digits of a concatenation are the digits of each part, in order; with the one-character case this fixes the result exactly (order and multiplicity kept) |
| Settlement.PendingRecord | tests/py/test_www_homepage.py:138-145 | the stored row starts pending with no transaction id; amount, name, email, logo and the promotion fields are the sanitised ones; the mailing-list flag is true iff the answer was "yes" |
| Settlement.Settle | tests/py/test_www_homepage.py:175-191 | the row succeeds iff the charge settled; it gets a transaction id iff the processor engaged with the token; nothing else in the row changes |
| Settlement.InvoiceUrl | tests/py/test_www_homepage.py:166 | the invoice url ends in "invoice.html" |
| Settlement.Invoice | tests/py/test_www_homepage.py:150-157 | the invoice goes to the row's email address with subject "Invoice from Gratipay" and a url ending in "invoice.html" |
| Settlement.Expected | tests/py/test_www_homepage.py:160-191 | fault means no effects; a row is stored iff validation passed; field errors are returned with no url and no effects; the stored row is settled by one charge on the sanitised amount and the token; an invoice is sent iff the charge succeeded, and then as the third and last event after insert and charge; on success no errors and the invoice url; on failure exactly ["charging"] |
| Settlement.ErrorTokensNeverMixed | tests/py/test_www_homepage.py:169-191 | returned errors are either canonical field names without repeats or exactly ["charging"] |
| Settlement.App.Store | tests/py/test_www_homepage.py:138-145 | appends the pending row for the fields and returns its id; the queue is unchanged |
| Settlement.App.Charge | tests/py/test_www_homepage.py:123-135 | replaces the pending row by its settlement under the processor's answer on (row amount, token); succeeded iff settled; nothing else changes |
| Settlement.App.Send | tests/py/test_www_homepage.py:148-157 | appends the row's invoice email to the queue; the table is unchanged |
| Settlement.App.Fulfil | tests/py/test_www_homepage.py:169-191 | given the parse result: a fault or field errors are answered with no row, no email and no trace; otherwise one row is stored and charged once, the invoice is queued iff it succeeded, all exactly as Expected says |
| Settlement.App.PayForOpenSource | tests/py/test_www_homepage.py:160-191 | the result, the new rows, the new emails and the trace are exactly those of Expected on the parse of the submission |
| Fixtures.ParseGood | tests/py/test_www_homepage.py:85-90 | GOOD parses with no errors; every text value is unchanged and the logo is the PNG asset |
| Fixtures.ParseBad | tests/py/test_www_homepage.py:92-97 | BAD parses to exactly SCRUBBED with errors == ALL |
| Fixtures.ParsePartial | tests/py/test_www_homepage.py:99-104 | PARTIAL (empty texts, "no") parses with no errors and unchanged values |
| Fixtures.TenDollarMinimum | tests/py/test_www_homepage.py:106-113 | amount "9" gives exactly ["amount"]; "10" gives no errors |
| Fixtures.EmptyFormIsMissingAmount | tests/py/test_www_homepage.py:209-213 | an empty form is the structural fault MissingKey("amount"), not a field-error list |
| Fixtures.PaysForOpenSource | tests/py/test_www_homepage.py:162-167 | GOOD gives no errors and an invoice url ending in "invoice.html"; its row succeeded; one invoice goes to alice@example.com |
| Fixtures.FlagsErrorsAndDoesntStore | tests/py/test_www_homepage.py:169-173 | BAD gives {errors: ALL, invoice_url: None}; no row is stored and no email is sent |
| Fixtures.FlagsErrorsWithNoTransactionId | tests/py/test_www_homepage.py:175-182 | a refused token gives ["charging"]; the row is stored, failed, with no transaction id |
| Fixtures.FlagsFailuresWithTransactionId | tests/py/test_www_homepage.py:184-191 | a declined charge gives ["charging"]; the row is stored, failed, with a transaction id |
| Fixtures.PartialPostIsFine | tests/py/test_www_homepage.py:216-225 | PARTIAL is paid for: no errors, an invoice url, a succeeded row |
| Fixtures.ChargeWithBadNonceFails | tests/py/test_www_homepage.py:123-128 | on a fresh App, storing a payment and charging it with the refused token "deadbeef" leaves it failed, with no transaction id |
| Fixtures.ChargeWithGoodNonceSucceeds | tests/py/test_www_homepage.py:130-135 | on a fresh App, storing a payment and charging it with the valid token leaves it succeeded, with a transaction id |
| Fixtures.StoreKeepsMailingList | tests/py/test_www_homepage.py:138-145 | storing the parsed GOOD fields on a fresh App gives one pending row for alice@example.com whose mailing-list flag is true |
| Fixtures.SendQueuesInvoice | tests/py/test_www_homepage.py:148-157 | sending for a stored (uncharged) GOOD payment queues one invoice to alice@example.com with subject "Invoice from Gratipay" |
| Fixtures.PayForGoodOnFreshApp | tests/py/test_www_homepage.py:162-167 | on a fresh App, paying for GOOD stores one succeeded row and queues one invoice to alice@example.com with subject "Invoice from Gratipay" |
| Fixtures.PayForBadOnFreshApp | tests/py/test_www_homepage.py:169-173 | on a fresh App, BAD returns ALL with no url and stores nothing |

## Left out

- HTTP transport: routing, status codes, headers, Content-Type, JSON encoding and the plain-text "Missing key" body (tests/py/test_www_homepage.py:194-226). Only the split between a structural fault and a field-error list is modelled, as `Failure(MissingKey(key))` versus `Success(...)`.
- Multipart body decoding (tests/py/test_www_homepage.py:19-24). A submission is a map from field name to string plus an optional logo upload.
- Image resizing and thumbnailing. The image intake is a function parameter `Upload -> Option<ImageAsset>`. `ORIGINAL`, `LARGE` and `SMALL` are stand-in bytes for the test images.
- The Braintree gateway and its sandbox decline rules (the decline-triggering amount 2000, the valid test nonces). The processor is a function parameter, and its answer is an input. A processor timeout counts as `TokenRejected`, a failure with no transaction id.
- The database and the email transport. The table is a sequence in `App`, and a row id is its position. The email queue is a sequence. Only an email's recipient, subject and invoice url are modelled, not its template or body. The row's creation timestamp is left out (no clock).
- Crash and cancellation between the insert and the settlement update, and concurrency: each method runs as one step.
- Intake.MAX_NONCE_LENGTH: the tests only show that 8-character ("deadbeef") and 16-character tokens pass validation and a 40-character one fails. The limit 25 is the model's own choice within that range, not a value the tests pin.
- Intake.CheckAmount: the tests only pin "1,000" to "1000". The model drops every non-digit character of an invalid amount. Other normalisation the implementation may do (whitespace trimming, decimals) is not modelled.
- Intake.Parse: the tests only show an empty form failing on "amount". The model makes every text field a required key, reported in canonical order. It treats an absent logo upload as no logo, not as a fault or an error.
- Settlement.InvoiceUrl: the tests only pin the suffix "invoice.html". The prefix "/browse/payments/" and the decimal row id in the path stand in for the site's real url scheme.
- Settlement.App.Charge: requires the row to be pending. The pipeline settles a payment exactly once, and charging an already settled row is outside the model.
- Settlement.App.Send: queues the invoice whenever it is called. The pipeline calls it exactly when the charge succeeded, even for an empty email address (the PARTIAL fixture).

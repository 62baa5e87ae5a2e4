/**
 * The intake validator and scrubber of the homepage donation form (`_parse`).
 *
 * Every field is normalised and checked on its own; a field that fails its
 * rule is replaced by a safe fallback and its name is added to the error
 * list. The error list follows the fixed canonical field order `ALL`,
 * whatever order the submission arrived in. A text field whose key is absent
 * altogether is not a field error but a structural fault, reported before
 * any field is checked.
 */
module Intake {
  import opened Wrappers
  import opened Decimal
  import opened Sequences

  const AMOUNT := "amount"
  const PAYMENT_METHOD_NONCE := "payment_method_nonce"
  const NAME := "name"
  const EMAIL_ADDRESS := "email_address"
  const ON_MAILING_LIST := "on_mailing_list"
  const PROMOTION_LOGO := "promotion_logo"
  const PROMOTION_NAME := "promotion_name"
  const PROMOTION_URL := "promotion_url"
  const PROMOTION_TWITTER := "promotion_twitter"
  const PROMOTION_MESSAGE := "promotion_message"

  /** The submission fields in canonical order; error lists follow this order. */
  const ALL: seq<string> :=
    [AMOUNT, PAYMENT_METHOD_NONCE, NAME, EMAIL_ADDRESS, ON_MAILING_LIST, PROMOTION_LOGO,
     PROMOTION_NAME, PROMOTION_URL, PROMOTION_TWITTER, PROMOTION_MESSAGE]

  /** The text fields, in canonical order; each must be present as a key of the submission. */
  const REQUIRED_KEYS: seq<string> :=
    [AMOUNT, PAYMENT_METHOD_NONCE, NAME, EMAIL_ADDRESS, ON_MAILING_LIST,
     PROMOTION_NAME, PROMOTION_URL, PROMOTION_TWITTER, PROMOTION_MESSAGE]

  /** Policy constants: the smallest amount accepted and the longest value kept per field. */
  const MIN_AMOUNT: nat := 10
  const MAX_NONCE_LENGTH: nat := 25
  const MAX_NAME_LENGTH: nat := 255
  const MAX_EMAIL_ADDRESS_LENGTH: nat := 255
  const MAX_PROMOTION_NAME_LENGTH: nat := 32
  const MAX_PROMOTION_URL_LENGTH: nat := 255
  const MAX_PROMOTION_TWITTER_LENGTH: nat := 32
  const MAX_PROMOTION_MESSAGE_LENGTH: nat := 128

  /** The fallback for an `on_mailing_list` value that is neither "yes" nor "no". */
  const MAILING_LIST_FALLBACK := "yes"

  /** An uploaded file: its bytes and the name the client gave it. */
  datatype Upload = Upload(content: seq<bv8>, filename: string)

  /** What the image intake makes of an accepted upload: the original, two derivatives and a media type. */
  datatype ImageAsset = ImageAsset(original: seq<bv8>, large: seq<bv8>, small: seq<bv8>, mediaType: string)

  /** The image intake collaborator: an accepted upload yields an asset, a rejected one yields None. */
  type ImageIntake = Upload -> Option<ImageAsset>

  /** A raw form submission: the text fields by name and, possibly, the logo upload. */
  datatype Submission = Submission(fields: map<string, string>, logo: Option<Upload>)

  /** A structural fault: a required key is absent from the submission. */
  datatype Fault = MissingKey(key: string)

  /** The outcome of checking one field: the value to keep and whether the raw value was valid. */
  datatype Check<T> = Check(value: T, ok: bool)

  /** The sanitised submission. */
  datatype Fields = Fields(
    amount: string,
    paymentMethodNonce: string,
    name: string,
    emailAddress: string,
    onMailingList: string,
    promotionLogo: Option<ImageAsset>,
    promotionName: string,
    promotionUrl: string,
    promotionTwitter: string,
    promotionMessage: string)

  /** The sanitised fields together with the names of the fields that failed their rule. */
  datatype Parsed = Parsed(fields: Fields, errors: seq<string>)

  // ---------------------------------------------------------------------------
  // Per-field rules

  /** An amount is valid when it is a non-empty run of digits denoting at least MIN_AMOUNT. */
  predicate ValidAmount(s: string) {
    |s| > 0 && IsDigits(s) && Value(s) >= MIN_AMOUNT
  }

  /** The amount rule. An invalid amount keeps its digits, so "1,000" is flagged but becomes "1000". */
  function CheckAmount(raw: string): (c: Check<string>)
    ensures c.ok <==> ValidAmount(raw)
    ensures c.value == DigitsOf(raw)
    ensures IsDigits(c.value)
    ensures c.ok ==> c.value == raw
  {
    if ValidAmount(raw) then Check(raw, true) else Check(DigitsOf(raw), false)
  }

  /** The payment token rule: an over-long token is flagged and scrubbed to the empty string. */
  function CheckNonce(raw: string): (c: Check<string>)
    ensures c.ok <==> |raw| <= MAX_NONCE_LENGTH
    ensures c.ok <==> c.value == raw
    ensures !c.ok ==> c.value == ""
  {
    if |raw| <= MAX_NONCE_LENGTH then Check(raw, true) else Check("", false)
  }

  /** The rule of every bounded text field: an over-long value is flagged and cut to exactly `max` characters. */
  function CheckLength(raw: string, max: nat): (c: Check<string>)
    ensures c.ok <==> |raw| <= max
    ensures c.ok <==> c.value == raw
    ensures |c.value| == if c.ok then |raw| else max
    ensures c.value == raw[..|c.value|]
  {
    if |raw| <= max then Check(raw, true) else Check(raw[..max], false)
  }

  /** The mailing-list rule: anything but "yes" or "no" is flagged and becomes "yes". */
  function CheckMailingList(raw: string): (c: Check<string>)
    ensures c.ok <==> raw == "yes" || raw == "no"
    ensures c.ok <==> c.value == raw
    ensures c.value == "yes" || c.value == "no"
    ensures !c.ok ==> c.value == MAILING_LIST_FALLBACK
  {
    if raw == "yes" || raw == "no" then Check(raw, true) else Check(MAILING_LIST_FALLBACK, false)
  }

  /** The logo rule: no upload is fine; an upload the image intake rejects is flagged and dropped. */
  function CheckLogo(upload: Option<Upload>, intake: ImageIntake): (c: Check<Option<ImageAsset>>)
    ensures c.ok <==> upload.None? || intake(upload.value).Some?
    ensures upload.Some? && c.ok ==> c.value == intake(upload.value)
    ensures upload.None? || !c.ok ==> c.value == None
  {
    match upload
    case None => Check(None, true)
    case Some(u) =>
      match intake(u)
      case Some(asset) => Check(Some(asset), true)
      case None => Check(None, false)
  }

  // ---------------------------------------------------------------------------
  // Aggregation

  /** The names whose verdict is false, in the order of `names`. */
  function Flagged(names: seq<string>, ok: seq<bool>): (r: seq<string>)
    requires |names| == |ok|
    ensures SubsequenceOf(r, names)
    ensures forall x :: x in r ==> x in names
    ensures |r| <= |names|
    ensures r == [] <==> forall i :: 0 <= i < |ok| ==> ok[i]
    ensures |r| == |names| <==> forall i :: 0 <= i < |ok| ==> !ok[i]
  {
    if names == [] then []
    else
      var rest := Flagged(names[1..], ok[1..]);
      assert forall i :: 1 <= i < |ok| ==> ok[1..][i - 1] == ok[i];
      if ok[0] then rest else [names[0]] + rest
  }

  /** A name occurs in the flagged list exactly when its verdict is false. */
  lemma {:induction false} FlaggedAt(names: seq<string>, ok: seq<bool>, i: nat)
    requires |names| == |ok| && i < |names| && Distinct(names)
    ensures names[i] in Flagged(names, ok) <==> !ok[i]
  {
    assert Distinct(names[1..]) by {
      forall j, k | 0 <= j < k < |names[1..]| ensures names[1..][j] != names[1..][k] {
        assert names[1..][j] == names[j + 1] && names[1..][k] == names[k + 1];
      }
    }
    var rest := Flagged(names[1..], ok[1..]);
    if i == 0 {
      assert names[0] !in names[1..];
    } else {
      FlaggedAt(names[1..], ok[1..], i - 1);
      assert names[1..][i - 1] == names[i];
    }
  }

  lemma AllDistinct()
    ensures Distinct(ALL)
  {
  }

  /** The structural precondition of scrubbing: every text field is present. */
  predicate HasRequiredKeys(raw: Submission) {
    forall k :: k in REQUIRED_KEYS ==> k in raw.fields
  }

  /** The position in REQUIRED_KEYS of the first key missing from `m`, or |keys| if none is missing. */
  function FirstMissing(keys: seq<string>, m: map<string, string>): (i: nat)
    ensures i <= |keys|
    ensures forall j :: 0 <= j < i ==> keys[j] in m
    ensures i < |keys| ==> keys[i] !in m
  {
    if keys == [] || keys[0] !in m then 0 else 1 + FirstMissing(keys[1..], m)
  }

  /** One verdict per field, in canonical order. */
  function Verdicts(raw: Submission, intake: ImageIntake): (v: seq<bool>)
    requires HasRequiredKeys(raw)
    ensures |v| == |ALL|
  {
    var f := raw.fields;
    [ CheckAmount(f[AMOUNT]).ok,
      CheckNonce(f[PAYMENT_METHOD_NONCE]).ok,
      CheckLength(f[NAME], MAX_NAME_LENGTH).ok,
      CheckLength(f[EMAIL_ADDRESS], MAX_EMAIL_ADDRESS_LENGTH).ok,
      CheckMailingList(f[ON_MAILING_LIST]).ok,
      CheckLogo(raw.logo, intake).ok,
      CheckLength(f[PROMOTION_NAME], MAX_PROMOTION_NAME_LENGTH).ok,
      CheckLength(f[PROMOTION_URL], MAX_PROMOTION_URL_LENGTH).ok,
      CheckLength(f[PROMOTION_TWITTER], MAX_PROMOTION_TWITTER_LENGTH).ok,
      CheckLength(f[PROMOTION_MESSAGE], MAX_PROMOTION_MESSAGE_LENGTH).ok ]
  }

  /** Checks every field of a structurally complete submission. */
  function Scrub(raw: Submission, intake: ImageIntake): (p: Parsed)
    requires HasRequiredKeys(raw)
    ensures SubsequenceOf(p.errors, ALL)
  {
    var f := raw.fields;
    var fields := Fields(
      CheckAmount(f[AMOUNT]).value,
      CheckNonce(f[PAYMENT_METHOD_NONCE]).value,
      CheckLength(f[NAME], MAX_NAME_LENGTH).value,
      CheckLength(f[EMAIL_ADDRESS], MAX_EMAIL_ADDRESS_LENGTH).value,
      CheckMailingList(f[ON_MAILING_LIST]).value,
      CheckLogo(raw.logo, intake).value,
      CheckLength(f[PROMOTION_NAME], MAX_PROMOTION_NAME_LENGTH).value,
      CheckLength(f[PROMOTION_URL], MAX_PROMOTION_URL_LENGTH).value,
      CheckLength(f[PROMOTION_TWITTER], MAX_PROMOTION_TWITTER_LENGTH).value,
      CheckLength(f[PROMOTION_MESSAGE], MAX_PROMOTION_MESSAGE_LENGTH).value);
    Parsed(fields, Flagged(ALL, Verdicts(raw, intake)))
  }

  /**
   * `_parse`: a structural fault naming the first absent text key, or else the
   * sanitised fields and the ordered list of fields that failed their rule.
   */
  function Parse(raw: Submission, intake: ImageIntake): (r: Result<Parsed, Fault>)
    ensures r.Success? <==> HasRequiredKeys(raw)
    ensures r.Failure? ==> r.error.key in REQUIRED_KEYS && r.error.key !in raw.fields
    ensures r.Success? ==> SubsequenceOf(r.value.errors, ALL)
  {
    var miss := FirstMissing(REQUIRED_KEYS, raw.fields);
    if miss < |REQUIRED_KEYS| then Failure(MissingKey(REQUIRED_KEYS[miss]))
    else Success(Scrub(raw, intake))
  }

  // ---------------------------------------------------------------------------
  // Properties of the validator

  /** When a key is missing, the fault names the first absent key in canonical order. */
  lemma FaultNamesFirstMissingKey(raw: Submission, intake: ImageIntake)
    requires Parse(raw, intake).Failure?
    ensures exists i ::
      (&& 0 <= i < |REQUIRED_KEYS|
       && REQUIRED_KEYS[i] == Parse(raw, intake).error.key
       && forall j :: 0 <= j < i ==> REQUIRED_KEYS[j] in raw.fields)
  {
    var i := FirstMissing(REQUIRED_KEYS, raw.fields);
    assert REQUIRED_KEYS[i] == Parse(raw, intake).error.key;
  }

  /** The error list is in canonical order and names no field twice. */
  lemma {:induction false} ErrorsCanonical(raw: Submission, intake: ImageIntake)
    requires Parse(raw, intake).Success?
    ensures SubsequenceOf(Parse(raw, intake).value.errors, ALL)
    ensures Distinct(Parse(raw, intake).value.errors)
  {
    AllDistinct();
    SubsequenceOfDistinct(Parse(raw, intake).value.errors, ALL);
  }

  /** A field is named in the error list exactly when its raw value breaks that field's rule. */
  lemma {:induction false} ErrorsNameExactlyTheInvalidFields(raw: Submission, intake: ImageIntake)
    requires Parse(raw, intake).Success?
    ensures var errors := Parse(raw, intake).value.errors;
      var f := raw.fields;
      && (AMOUNT in errors <==> !ValidAmount(f[AMOUNT]))
      && (PAYMENT_METHOD_NONCE in errors <==> |f[PAYMENT_METHOD_NONCE]| > MAX_NONCE_LENGTH)
      && (NAME in errors <==> |f[NAME]| > MAX_NAME_LENGTH)
      && (EMAIL_ADDRESS in errors <==> |f[EMAIL_ADDRESS]| > MAX_EMAIL_ADDRESS_LENGTH)
      && (ON_MAILING_LIST in errors <==> f[ON_MAILING_LIST] != "yes" && f[ON_MAILING_LIST] != "no")
      && (PROMOTION_LOGO in errors <==> raw.logo.Some? && intake(raw.logo.value).None?)
      && (PROMOTION_NAME in errors <==> |f[PROMOTION_NAME]| > MAX_PROMOTION_NAME_LENGTH)
      && (PROMOTION_URL in errors <==> |f[PROMOTION_URL]| > MAX_PROMOTION_URL_LENGTH)
      && (PROMOTION_TWITTER in errors <==> |f[PROMOTION_TWITTER]| > MAX_PROMOTION_TWITTER_LENGTH)
      && (PROMOTION_MESSAGE in errors <==> |f[PROMOTION_MESSAGE]| > MAX_PROMOTION_MESSAGE_LENGTH)
  {
    var v := Verdicts(raw, intake);
    assert Parse(raw, intake).value.errors == Flagged(ALL, v);
    FlaggedFields(v);
  }

  /** Each field name is flagged exactly when its own verdict failed. */
  lemma FlaggedFields(v: seq<bool>)
    requires |v| == |ALL|
    ensures var errors := Flagged(ALL, v);
      && (AMOUNT in errors <==> !v[0]) && (PAYMENT_METHOD_NONCE in errors <==> !v[1])
      && (NAME in errors <==> !v[2]) && (EMAIL_ADDRESS in errors <==> !v[3])
      && (ON_MAILING_LIST in errors <==> !v[4]) && (PROMOTION_LOGO in errors <==> !v[5])
      && (PROMOTION_NAME in errors <==> !v[6]) && (PROMOTION_URL in errors <==> !v[7])
      && (PROMOTION_TWITTER in errors <==> !v[8]) && (PROMOTION_MESSAGE in errors <==> !v[9])
  {
    AllDistinct();
    FlaggedAt(ALL, v, 0);
    FlaggedAt(ALL, v, 1);
    FlaggedAt(ALL, v, 2);
    FlaggedAt(ALL, v, 3);
    FlaggedAt(ALL, v, 4);
    FlaggedAt(ALL, v, 5);
    FlaggedAt(ALL, v, 6);
    FlaggedAt(ALL, v, 7);
    FlaggedAt(ALL, v, 8);
    FlaggedAt(ALL, v, 9);
  }

  /** Every field of a structurally complete submission obeys its rule. */
  predicate WellFormed(raw: Submission, intake: ImageIntake)
    requires HasRequiredKeys(raw)
  {
    var f := raw.fields;
    && ValidAmount(f[AMOUNT])
    && |f[PAYMENT_METHOD_NONCE]| <= MAX_NONCE_LENGTH
    && |f[NAME]| <= MAX_NAME_LENGTH
    && |f[EMAIL_ADDRESS]| <= MAX_EMAIL_ADDRESS_LENGTH
    && (f[ON_MAILING_LIST] == "yes" || f[ON_MAILING_LIST] == "no")
    && (raw.logo.None? || intake(raw.logo.value).Some?)
    && |f[PROMOTION_NAME]| <= MAX_PROMOTION_NAME_LENGTH
    && |f[PROMOTION_URL]| <= MAX_PROMOTION_URL_LENGTH
    && |f[PROMOTION_TWITTER]| <= MAX_PROMOTION_TWITTER_LENGTH
    && |f[PROMOTION_MESSAGE]| <= MAX_PROMOTION_MESSAGE_LENGTH
  }

  /** Every field of a structurally complete submission breaks its rule. */
  predicate AllMalformed(raw: Submission, intake: ImageIntake)
    requires HasRequiredKeys(raw)
  {
    var f := raw.fields;
    && !ValidAmount(f[AMOUNT])
    && |f[PAYMENT_METHOD_NONCE]| > MAX_NONCE_LENGTH
    && |f[NAME]| > MAX_NAME_LENGTH
    && |f[EMAIL_ADDRESS]| > MAX_EMAIL_ADDRESS_LENGTH
    && f[ON_MAILING_LIST] != "yes" && f[ON_MAILING_LIST] != "no"
    && raw.logo.Some? && intake(raw.logo.value).None?
    && |f[PROMOTION_NAME]| > MAX_PROMOTION_NAME_LENGTH
    && |f[PROMOTION_URL]| > MAX_PROMOTION_URL_LENGTH
    && |f[PROMOTION_TWITTER]| > MAX_PROMOTION_TWITTER_LENGTH
    && |f[PROMOTION_MESSAGE]| > MAX_PROMOTION_MESSAGE_LENGTH
  }

  /**
   * The error list is empty exactly when every field is well formed, and then
   * every text field comes back exactly as submitted and the logo is the
   * image intake's asset.
   */
  lemma {:induction false} WellFormedSurvives(raw: Submission, intake: ImageIntake)
    requires HasRequiredKeys(raw)
    ensures Parse(raw, intake).value.errors == [] <==> WellFormed(raw, intake)
    ensures var f := raw.fields;
      WellFormed(raw, intake) ==>
        Parse(raw, intake) == Success(Parsed(
          Fields(f[AMOUNT], f[PAYMENT_METHOD_NONCE], f[NAME], f[EMAIL_ADDRESS], f[ON_MAILING_LIST],
                 if raw.logo.Some? then intake(raw.logo.value) else None,
                 f[PROMOTION_NAME], f[PROMOTION_URL], f[PROMOTION_TWITTER], f[PROMOTION_MESSAGE]),
          []))
  {
    var v := Verdicts(raw, intake);
    assert (forall i :: 0 <= i < |ALL| ==> v[i]) <==> WellFormed(raw, intake) by {
      if WellFormed(raw, intake) {
        assert forall i :: 0 <= i < |ALL| ==> v[i];
      } else {
        assert !(v[0] && v[1] && v[2] && v[3] && v[4] && v[5] && v[6] && v[7] && v[8] && v[9]);
      }
    }
  }

  /**
   * Each field is checked on its own: whatever the other fields hold, a field
   * that obeys its rule comes back as submitted, and one that breaks it gets
   * that field's own fallback.
   */
  lemma {:induction false} EachFieldOnItsOwn(raw: Submission, intake: ImageIntake)
    requires HasRequiredKeys(raw)
    ensures var p := Parse(raw, intake).value.fields;
      var f := raw.fields;
      && p.amount == DigitsOf(f[AMOUNT])
      && (ValidAmount(f[AMOUNT]) ==> p.amount == f[AMOUNT])
      && (|f[PAYMENT_METHOD_NONCE]| <= MAX_NONCE_LENGTH ==> p.paymentMethodNonce == f[PAYMENT_METHOD_NONCE])
      && (|f[PAYMENT_METHOD_NONCE]| > MAX_NONCE_LENGTH ==> p.paymentMethodNonce == "")
      && (|f[NAME]| <= MAX_NAME_LENGTH ==> p.name == f[NAME])
      && (|f[NAME]| > MAX_NAME_LENGTH ==> p.name == f[NAME][..MAX_NAME_LENGTH])
      && (|f[EMAIL_ADDRESS]| <= MAX_EMAIL_ADDRESS_LENGTH ==> p.emailAddress == f[EMAIL_ADDRESS])
      && (|f[EMAIL_ADDRESS]| > MAX_EMAIL_ADDRESS_LENGTH ==>
            p.emailAddress == f[EMAIL_ADDRESS][..MAX_EMAIL_ADDRESS_LENGTH])
      && ((f[ON_MAILING_LIST] == "yes" || f[ON_MAILING_LIST] == "no") ==> p.onMailingList == f[ON_MAILING_LIST])
      && (f[ON_MAILING_LIST] != "yes" && f[ON_MAILING_LIST] != "no" ==> p.onMailingList == MAILING_LIST_FALLBACK)
      && (raw.logo.None? ==> p.promotionLogo == None)
      && (raw.logo.Some? ==> p.promotionLogo == intake(raw.logo.value))
      && (|f[PROMOTION_NAME]| <= MAX_PROMOTION_NAME_LENGTH ==> p.promotionName == f[PROMOTION_NAME])
      && (|f[PROMOTION_NAME]| > MAX_PROMOTION_NAME_LENGTH ==>
            p.promotionName == f[PROMOTION_NAME][..MAX_PROMOTION_NAME_LENGTH])
      && (|f[PROMOTION_URL]| <= MAX_PROMOTION_URL_LENGTH ==> p.promotionUrl == f[PROMOTION_URL])
      && (|f[PROMOTION_URL]| > MAX_PROMOTION_URL_LENGTH ==>
            p.promotionUrl == f[PROMOTION_URL][..MAX_PROMOTION_URL_LENGTH])
      && (|f[PROMOTION_TWITTER]| <= MAX_PROMOTION_TWITTER_LENGTH ==> p.promotionTwitter == f[PROMOTION_TWITTER])
      && (|f[PROMOTION_TWITTER]| > MAX_PROMOTION_TWITTER_LENGTH ==>
            p.promotionTwitter == f[PROMOTION_TWITTER][..MAX_PROMOTION_TWITTER_LENGTH])
      && (|f[PROMOTION_MESSAGE]| <= MAX_PROMOTION_MESSAGE_LENGTH ==> p.promotionMessage == f[PROMOTION_MESSAGE])
      && (|f[PROMOTION_MESSAGE]| > MAX_PROMOTION_MESSAGE_LENGTH ==>
            p.promotionMessage == f[PROMOTION_MESSAGE][..MAX_PROMOTION_MESSAGE_LENGTH])
  {
    assert Parse(raw, intake).value == Scrub(raw, intake);
  }

  /**
   * Every field malformed: the error list is all of ALL; each over-long text
   * value is cut to exactly its limit, so it differs from what was sent; the
   * token is emptied, the mailing-list answer becomes "yes", the logo is
   * dropped; the amount keeps its digits, so it changes exactly when the
   * submitted amount held something other than digits.
   */
  lemma {:induction false} AllInvalidFlagsAll(raw: Submission, intake: ImageIntake)
    requires HasRequiredKeys(raw) && AllMalformed(raw, intake)
    ensures Parse(raw, intake).value.errors == ALL
    ensures var p := Parse(raw, intake).value.fields;
      var f := raw.fields;
      && p.amount == Decimal.DigitsOf(f[AMOUNT])
      && (p.amount == f[AMOUNT] <==> IsDigits(f[AMOUNT]))
      && p.paymentMethodNonce == "" != f[PAYMENT_METHOD_NONCE]
      && p.name == f[NAME][..MAX_NAME_LENGTH] != f[NAME]
      && p.emailAddress == f[EMAIL_ADDRESS][..MAX_EMAIL_ADDRESS_LENGTH] != f[EMAIL_ADDRESS]
      && p.onMailingList == MAILING_LIST_FALLBACK != f[ON_MAILING_LIST]
      && p.promotionLogo == None
      && p.promotionName == f[PROMOTION_NAME][..MAX_PROMOTION_NAME_LENGTH] != f[PROMOTION_NAME]
      && p.promotionUrl == f[PROMOTION_URL][..MAX_PROMOTION_URL_LENGTH] != f[PROMOTION_URL]
      && p.promotionTwitter == f[PROMOTION_TWITTER][..MAX_PROMOTION_TWITTER_LENGTH] != f[PROMOTION_TWITTER]
      && p.promotionMessage == f[PROMOTION_MESSAGE][..MAX_PROMOTION_MESSAGE_LENGTH] != f[PROMOTION_MESSAGE]
  {
    var v := Verdicts(raw, intake);
    assert forall i :: 0 <= i < |ALL| ==> !v[i];
    var errors := Parse(raw, intake).value.errors;
    assert |errors| == |ALL|;
    var f := raw.fields;
    assert f[PAYMENT_METHOD_NONCE] != "" by { assert |f[PAYMENT_METHOD_NONCE]| > MAX_NONCE_LENGTH; }
    SameLengthSubsequence(errors, ALL);
  }

  /** A subsequence as long as the sequence it is taken from is that sequence. */
  lemma {:induction false} SameLengthSubsequence(xs: seq<string>, ys: seq<string>)
    requires SubsequenceOf(xs, ys) && |xs| == |ys|
    ensures xs == ys
    decreases |ys|
  {
    if xs != [] {
      if xs[0] == ys[0] && SubsequenceOf(xs[1..], ys[1..]) {
        SameLengthSubsequence(xs[1..], ys[1..]);
        assert xs == [xs[0]] + xs[1..] && ys == [ys[0]] + ys[1..];
      } else {
        SubsequenceNoLonger(xs, ys[1..]);
      }
    }
  }

  lemma {:induction false} SubsequenceNoLonger(xs: seq<string>, ys: seq<string>)
    requires SubsequenceOf(xs, ys)
    ensures |xs| <= |ys|
    decreases |ys|
  {
    if xs != [] {
      if xs[0] == ys[0] && SubsequenceOf(xs[1..], ys[1..]) {
        SubsequenceNoLonger(xs[1..], ys[1..]);
      } else {
        SubsequenceNoLonger(xs, ys[1..]);
      }
    }
  }

  /** The submission that resends the scrubbed text values, without a logo upload. */
  function Resubmission(p: Fields): Submission {
    Submission(
      map[AMOUNT := p.amount,
          PAYMENT_METHOD_NONCE := p.paymentMethodNonce,
          NAME := p.name,
          EMAIL_ADDRESS := p.emailAddress,
          ON_MAILING_LIST := p.onMailingList,
          PROMOTION_NAME := p.promotionName,
          PROMOTION_URL := p.promotionUrl,
          PROMOTION_TWITTER := p.promotionTwitter,
          PROMOTION_MESSAGE := p.promotionMessage],
      None)
  }

  /** Every scrubbed text value obeys its field's rule; the amount is at least a digit string. */
  predicate Sanitary(p: Fields) {
    && IsDigits(p.amount)
    && |p.paymentMethodNonce| <= MAX_NONCE_LENGTH
    && |p.name| <= MAX_NAME_LENGTH
    && |p.emailAddress| <= MAX_EMAIL_ADDRESS_LENGTH
    && (p.onMailingList == "yes" || p.onMailingList == "no")
    && |p.promotionName| <= MAX_PROMOTION_NAME_LENGTH
    && |p.promotionUrl| <= MAX_PROMOTION_URL_LENGTH
    && |p.promotionTwitter| <= MAX_PROMOTION_TWITTER_LENGTH
    && |p.promotionMessage| <= MAX_PROMOTION_MESSAGE_LENGTH
  }

  /** Whatever was submitted, the scrubbed values obey the field rules. */
  lemma ScrubbedIsSanitary(raw: Submission, intake: ImageIntake)
    requires Parse(raw, intake).Success?
    ensures Sanitary(Parse(raw, intake).value.fields)
  {
  }

  lemma ResubmissionFields(p: Fields)
    ensures var f := Resubmission(p).fields;
      && HasRequiredKeys(Resubmission(p))
      && f[AMOUNT] == p.amount
      && f[PAYMENT_METHOD_NONCE] == p.paymentMethodNonce
      && f[NAME] == p.name
      && f[EMAIL_ADDRESS] == p.emailAddress
      && f[ON_MAILING_LIST] == p.onMailingList
      && f[PROMOTION_NAME] == p.promotionName
      && f[PROMOTION_URL] == p.promotionUrl
      && f[PROMOTION_TWITTER] == p.promotionTwitter
      && f[PROMOTION_MESSAGE] == p.promotionMessage
  {
  }

  /** Resubmitting sanitary values keeps every one of them and flags at most the amount. */
  lemma {:induction false} ResubmitSanitary(p: Fields, intake: ImageIntake)
    requires Sanitary(p)
    ensures Parse(Resubmission(p), intake) ==
      Success(Parsed(p.(promotionLogo := None), if ValidAmount(p.amount) then [] else [AMOUNT]))
  {
    var again := Resubmission(p);
    ResubmissionFields(p);
    assert FirstMissing(REQUIRED_KEYS, again.fields) == |REQUIRED_KEYS|;
    ResubmitKeepsValues(p, intake);
    ResubmitVerdicts(p, intake);
    FlaggedTail(Verdicts(again, intake));
  }

  lemma ResubmitKeepsValues(p: Fields, intake: ImageIntake)
    requires Sanitary(p)
    ensures HasRequiredKeys(Resubmission(p))
    ensures Scrub(Resubmission(p), intake).fields == p.(promotionLogo := None)
  {
    ResubmissionFields(p);
    assert CheckAmount(p.amount).value == p.amount;
  }

  lemma ResubmitVerdicts(p: Fields, intake: ImageIntake)
    requires Sanitary(p)
    ensures HasRequiredKeys(Resubmission(p))
    ensures var v := Verdicts(Resubmission(p), intake);
      v[0] == ValidAmount(p.amount) && forall i :: 1 <= i < |v| ==> v[i]
  {
    ResubmissionFields(p);
  }

  /**
   * Scrubbing is idempotent: resubmitting the scrubbed values changes none of
   * them, and the only field that can still be flagged is an amount whose
   * digits denote less than MIN_AMOUNT.
   */
  lemma {:induction false} ScrubIdempotent(raw: Submission, intake: ImageIntake)
    requires Parse(raw, intake).Success?
    ensures var p := Parse(raw, intake).value.fields;
      Parse(Resubmission(p), intake) ==
        Success(Parsed(p.(promotionLogo := None), if ValidAmount(p.amount) then [] else [AMOUNT]))
  {
    ScrubbedIsSanitary(raw, intake);
    ResubmitSanitary(Parse(raw, intake).value.fields, intake);
  }

  /** With every verdict after the first true, Flagged(ALL, v) is at most the amount. */
  lemma FlaggedTail(v: seq<bool>)
    requires |v| == |ALL| && forall i :: 1 <= i < |v| ==> v[i]
    ensures Flagged(ALL, v) == if v[0] then [] else [AMOUNT]
  {
    var tail := Flagged(ALL[1..], v[1..]);
    assert forall i :: 0 <= i < |v[1..]| ==> v[1..][i];
    assert tail == [];
  }
}

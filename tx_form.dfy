/**
 * The two validated fields of the send form (recipient and amount), as the form's validation schema
 * tests them. A field's errors are the set of its failing tests; the field is accepted when the set is
 * empty.
 */
module TxForm {
  import opened Wrappers
  import opened StxAmount

  /**
   * The amount field as validation receives it: the form hands an empty field over as undefined,
   * text that is no number fails the number cast, anything else is a number.
   */
  datatype AmountInput = Empty | NotANumber | Number(value: Amount)

  datatype AmountError = TypeError | NotPositive | TooManyDecimals | ExceedsBalance | Required

  datatype RecipientError = NotStacksAddress | WrongNetwork | OwnAddress

  /**
   * The verdicts of the two address checks on the entered recipient (an empty field is checked as
   * ""): whether it is a Stacks address at all, and whether it belongs to the configured network.
   */
  datatype AddressChecks = AddressChecks(isStacksAddress: bool, isForNetwork: bool)

  /** The amount once cast: None for an empty field. */
  function CastAmount(input: AmountInput): Option<Amount>
    requires !input.NotANumber?
  {
    if input.Number? then Some(input.value) else None
  }

  /** `positive()`: skipped for an empty field, otherwise the value must be above zero. */
  predicate PositiveTest(v: Option<Amount>) {
    v.None? || Scaled(v.value) > 0
  }

  /** BigNumber prints an undefined value as "NaN". */
  function Rendering(v: Option<Amount>): string {
    if v.Some? then ToString10(v.value) else "NaN"
  }

  /** The six-decimal-places test: the part after the point of the printed number is absent or short. */
  predicate DecimalsTest(v: Option<Amount>) {
    var decimals := FractionPart(Rendering(v));
    decimals.None? || |decimals.value| <= StxDecimals
  }

  /** The balance test: passes when there is no input, otherwise the micro-STX value is at most the balance. */
  predicate BalanceTest(v: Option<Amount>, balance: int) {
    v.None? || MicroStxAtMost(v.value, balance)
  }

  /** The six-decimal-places test, run on the printed number, counts the fraction digits of the amount. */
  lemma DecimalsTestCountsFractionDigits(d: Amount)
    ensures DecimalsTest(Some(d)) <==> |d.fraction| <= StxDecimals
  {
    FractionPartOfRendering(d);
  }

  /** The amount is a whole number of micro-STX: some integer equals `d * 10^6`. */
  ghost predicate IsWholeMicroStx(d: Amount) {
    exists m: int {:trigger m * Pow10(|d.fraction|)} :: m * Pow10(|d.fraction|) == Scaled(d) * MicroPerStx
  }

  /** The six-decimal-places test passes exactly for the amounts that are a whole number of micro-STX. */
  lemma DecimalsTestIsWholeMicroStx(d: Amount)
    ensures DecimalsTest(Some(d)) <==> IsWholeMicroStx(d)
  {
    DecimalsTestCountsFractionDigits(d);
    if DecimalsTest(Some(d)) {
      var m := MicroStx(d);
      assert m * Pow10(|d.fraction|) == Scaled(d) * MicroPerStx;
    } else {
      forall m: int ensures m * Pow10(|d.fraction|) != Scaled(d) * MicroPerStx {
        NoMicroStxBeyondSixDecimals(d, m);
      }
    }
  }

  /** What the three tests say about a cast amount; an empty field passes all three. */
  lemma TestsOnCastAmount(input: AmountInput, balance: int)
    ensures input.Empty? ==> DecimalsTest(None)
    ensures input.Number? ==> (DecimalsTest(Some(input.value)) <==> |input.value.fraction| <= StxDecimals)
    ensures input.Number? && |input.value.fraction| <= StxDecimals ==>
      (BalanceTest(Some(input.value), balance) <==> MicroStx(input.value) <= balance)
  {
    if input.Number? {
      DecimalsTestCountsFractionDigits(input.value);
      if |input.value.fraction| <= StxDecimals {
        MicroStxAtMostIsComparison(input.value, balance);
      }
    } else {
      Text.SplitWithoutSeparator("NaN", '.');
    }
  }

  /** The failing tests of the amount field, against the balance in micro-STX. */
  function AmountErrors(input: AmountInput, balance: int): (errs: set<AmountError>)
    ensures errs == {} <==>
      input.Number? && Scaled(input.value) > 0 && |input.value.fraction| <= StxDecimals &&
      MicroStx(input.value) <= balance
    ensures input.Empty? ==> errs == {Required}
    ensures input.NotANumber? ==> errs == {TypeError}
    ensures input.Number? ==> (TooManyDecimals in errs <==> |input.value.fraction| > StxDecimals)
    ensures input.Number? && |input.value.fraction| <= StxDecimals ==>
      (ExceedsBalance in errs <==> MicroStx(input.value) > balance)
  {
    TestsOnCastAmount(input, balance);
    if input.NotANumber? then {TypeError}
    else
      var v := CastAmount(input);
      (if PositiveTest(v) then {} else {NotPositive}) +
      (if DecimalsTest(v) then {} else {TooManyDecimals}) +
      (if BalanceTest(v, balance) then {} else {ExceedsBalance}) +
      (if v.Some? then {} else {Required})
  }

  /**
   * The failing tests of the recipient field. The own-address test compares the value the form hands
   * over, which is undefined for an empty field, with the sender's address.
   */
  function RecipientErrors(recipient: string, address: string, checks: AddressChecks): (errs: set<RecipientError>)
    ensures OwnAddress in errs <==> recipient != "" && recipient == address
    ensures errs == {} <==> checks.isStacksAddress && checks.isForNetwork && (recipient == "" || recipient != address)
  {
    (if checks.isStacksAddress then {} else {NotStacksAddress}) +
    (if checks.isForNetwork then {} else {WrongNetwork}) +
    (if recipient != "" && recipient == address then {OwnAddress} else {})
  }

  datatype FormErrors = FormErrors(recipient: set<RecipientError>, amount: set<AmountError>) {
    predicate Passes() {
      recipient == {} && amount == {}
    }
  }

  function Validate(recipient: string, amount: AmountInput, address: string, checks: AddressChecks, balance: int): (e: FormErrors)
    ensures e.Passes() ==> amount.Number? && |amount.value.fraction| <= StxDecimals
    ensures e.Passes() ==> 0 < MicroStx(amount.value) <= balance
    ensures e.Passes() ==> recipient == "" || recipient != address
  {
    FormErrors(RecipientErrors(recipient, address, checks), AmountErrors(amount, balance))
  }
}

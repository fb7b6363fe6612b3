/** The operator's form for a new transaction: an amount typed as text and
    a currency chosen from four, checked by the form's schema before the
    create call, then a confirmation card until 'Create Another'. */
module CreateTransaction {
  import opened Domain
  import Api

  /** The currency select's values, in order. */
  const Currencies: seq<string> := ["MXN", "USD", "EUR", "GBP"]

  const DefaultCurrency: string := "MXN"

  const NotANumber: string := "Expected number, received nan"
  const NotPositive: string := "Amount must be greater than 0"
  const NoCurrency: string := "Please select a currency"

  /** The amount rule, `z.number().positive(...)`: a NaN from `parseFloat`
      fails the type check with the schema library's own message, a number
      that is not above zero fails with the form's message. */
  function AmountError(n: JsNumber): (e: Option<string>)
    ensures e.None? <==> n.Num? && n.v > 0.0
    ensures e == Some(NotANumber) <==> n == NaN
    ensures e == Some(NotPositive) <==> n.Num? && n.v <= 0.0
  {
    match n
    case NaN => Some(NotANumber)
    case Num(v) => if v > 0.0 then None else Some(NotPositive)
  }

  /** The currency rule, `z.string().min(1, ...)`. */
  function CurrencyError(c: string): (e: Option<string>)
    ensures e.None? <==> c != ""
    ensures e.Some? ==> e.value == NoCurrency
  {
    if c == "" then Some(NoCurrency) else None
  }

  /** The per-field messages; both fields are checked, every issue reported. */
  datatype FieldErrors = FieldErrors(amount: Option<string>, currency: Option<string>)

  const NoErrors: FieldErrors := FieldErrors(None, None)

  function Validate(n: JsNumber, currency: string): (errs: FieldErrors)
    ensures errs.amount == AmountError(n) && errs.currency == CurrencyError(currency)
  {
    FieldErrors(AmountError(n), CurrencyError(currency))
  }

  /** The schema accepts exactly a positive number with a currency. */
  lemma ValidateAccepts(n: JsNumber, currency: string)
    ensures Validate(n, currency) == NoErrors <==> n.Num? && n.v > 0.0 && currency != ""
  {
  }

  /** The default currency is one of the options, so an untouched currency
      never fails its rule. */
  lemma DefaultCurrencyOffered()
    ensures DefaultCurrency in Currencies
    ensures forall c :: c in Currencies ==> CurrencyError(c).None?
  {
  }

  /** What the confirmation card shows of the created record. */
  datatype Created = Created(id: string, reference: string)

  class CreateForm {
    var amountText: string
    var currency: string
    var isLoading: bool
    var errors: FieldErrors
    var created: Option<Created>

    constructor ()
      ensures amountText == "" && currency == DefaultCurrency && !isLoading
      ensures errors == NoErrors && created.None?
    {
      amountText := "";
      currency := DefaultCurrency;
      isLoading := false;
      errors := NoErrors;
      created := None;
    }

    method SetAmount(text: string)
      modifies this`amountText
      ensures amountText == text
    {
      amountText := text;
    }

    method SetCurrency(c: string)
      modifies this`currency
      ensures currency == c
    {
      currency := c;
    }

    /** `handleSubmit`: the messages are cleared and the amount parsed
        (`parse` stands for `parseFloat`); a failing check records its
        messages and stops; otherwise the create call is issued, and its
        success records the new record's id and reference. The busy flag is
        up only while the call is pending, so it is down again here. */
    method HandleSubmit(parse: string -> JsNumber, outcome: Outcome<Transaction>) returns (issued: Option<Api.Request>)
      modifies this`isLoading, this`errors, this`created
      ensures errors == Validate(parse(amountText), currency)
      ensures issued.Some? <==> errors == NoErrors
      ensures issued.Some? ==> issued.value == Api.Create(parse(amountText), currency)
      ensures issued.Some? && outcome.Success? ==>
        created == Some(Created(outcome.value.id, outcome.value.reference))
      ensures issued.None? || outcome.Failure? ==> created == old(created)
      ensures issued.None? ==> isLoading == old(isLoading)
      ensures issued.Some? ==> !isLoading
    {
      errors := NoErrors;
      var amount := parse(amountText);
      var result := Validate(amount, currency);
      if result != NoErrors {
        errors := result;
        return None;
      }
      isLoading := true;
      issued := Some(Api.Create(amount, currency));
      if outcome.Success? {
        created := Some(Created(outcome.value.id, outcome.value.reference));
      }
      isLoading := false;
    }

    /** 'Create Another': back to the form with an empty amount; the
        currency is kept. */
    method CreateAnother()
      modifies this`created, this`amountText
      ensures created.None? && amountText == ""
    {
      created := None;
      amountText := "";
    }
  }
}

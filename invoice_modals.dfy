/**
  The create and edit invoice modals: the digit-and-comma filter of the
  amount and rate inputs, the value an accepted input stores, formatting on
  blur, which fields are shown for a symbol and type, the select value
  mapping, and cancel.

  Both modals edit the page's form record and selections, so each holds a
  reference to the `SanadPage` whose state it changes. `format` stands for
  the locale formatting of `digitSeparator`, used only on the positive
  integers the blur handlers pass it, so `format(n)` is
  `StringCase.DigitSeparator(NumberArg(Num(n as real)), …)` for such `n`.
  The display strings are props owned by a parent component that no file
  renders, so their initial values are constructor parameters.
 */
module InvoiceModals {
  import opened Wrappers
  import opened Text
  import opened Sanad
  import StringCase

  /** The input filter `/^[0-9,]*$/`: ASCII digits and commas only, empty allowed. */
  predicate NumberInputAccepted(s: string) {
    forall i :: 0 <= i < |s| ==> IsAsciiDigit(s[i]) || s[i] == ','
  }

  /** What an accepted input stores: `removeCommaFromNumber` is then a finite
      number, the decimal value of its digits (0 for no digits). */
  function AcceptedValue(s: string): (v: nat)
    requires NumberInputAccepted(s)
    ensures RemoveCommaFromNumber(s) == Finite(v)
    ensures AllDigits(Without(s, ',')) && v == DigitsValue(Without(s, ','))
  {
    var d := Without(s, ',');
    assert AllDigits(d) by {
      forall i | 0 <= i < |d|
        ensures IsAsciiDigit(d[i])
      {
        var j :| 0 <= j < |s| && s[j] == d[i];
      }
    }
    DigitsValue(d)
  }

  /** Digit-group commas never change the stored value, wherever they are typed. */
  lemma CommaDoesNotChangeValue(a: string, b: string)
    requires NumberInputAccepted(a + b)
    ensures NumberInputAccepted(a + "," + b)
    ensures AcceptedValue(a + "," + b) == AcceptedValue(a + b)
  {
    assert NumberInputAccepted(a + "," + b) by {
      forall i | 0 <= i < |a + "," + b|
        ensures IsAsciiDigit((a + "," + b)[i]) || (a + "," + b)[i] == ','
      {
        if i < |a| {
          assert (a + "," + b)[i] == (a + b)[i];
        } else if i > |a| {
          assert (a + "," + b)[i] == (a + b)[i - 1];
        }
      }
    }
    WithoutAppend(a + ",", b, ',');
    WithoutAppend(a, ",", ',');
    WithoutAppend(a, b, ',');
    assert Without(",", ',') == [];
    assert Without(a + ",", ',') == Without(a, ',');
    assert Without(a + "," + b, ',') == Without(a + b, ',');
  }

  lemma AcceptedValueOfPlainDigits(s: string)
    requires AllDigits(s)
    ensures NumberInputAccepted(s) && AcceptedValue(s) == DigitsValue(s)
  {
  }

  /** Persian digits, as the `fa-IR` locale writes numbers. */
  predicate IsPersianDigit(c: char) {
    '\U{06F0}' <= c <= '\U{06F9}'
  }

  /** Text holding a Persian digit is not a number to `removeCommaFromNumber`. */
  lemma PersianDigitMakesNaN(text: string, i: nat)
    requires i < |text| && IsPersianDigit(text[i])
    ensures RemoveCommaFromNumber(text) == NaN
  {
    var d := Without(text, ',');
    assert text[i] in text;
    assert text[i] in d;
    var j :| 0 <= j < |d| && d[j] == text[i];
    BeyondLatinNotNumeral(d[j]);
  }

  /** The edit modal's rate `onChange` as written: the edited text goes to
      `removeCommaFromNumber` unfiltered, and whatever number that gives, NaN
      included, becomes the rate. */
  function AsWrittenRateChanged(value: string): (rate: NumberValue)
    ensures NumberInputAccepted(value) ==> rate == Finite(AcceptedValue(value))
  {
    RemoveCommaFromNumber(value)
  }

  /** The edit modal's rate input shows `digitSeparator(rate)`, which for a
      zero rate is the formatter's "۰". Whatever is typed after it, the
      as-written handler stores NaN, and the input then shows `digitSeparator`
      of NaN, an ASCII "0". */
  lemma TypingIntoFormattedRate(parseFloat: string -> StringCase.FloatValue, format: real -> string, typed: string)
    requires format(0.0) == "۰"
    ensures var shown := StringCase.DigitSeparator(StringCase.NumberArg(StringCase.Num(0.0)), parseFloat, format);
      AsWrittenRateChanged(shown + typed) == NaN
    ensures StringCase.DigitSeparator(StringCase.NumberArg(StringCase.NotANumber), parseFloat, format) == "0"
  {
    var shown := StringCase.DigitSeparator(StringCase.NumberArg(StringCase.Num(0.0)), parseFloat, format);
    assert shown == "۰";
    PersianDigitMakesNaN(shown + typed, 0);
  }

  /** The rate field is shown for every symbol but toman. */
  predicate ShowRate(symbol: Option<int>) {
    symbol != Some(Toman)
  }

  /** The transaction-hash field: tether, for types other than 1 and 2. */
  predicate ShowTxId(symbol: Option<int>, invoiceType: Option<int>) {
    symbol == Some(1) && invoiceType != Some(1) && invoiceType != Some(2)
  }

  /** The tracking-code field: toman only. */
  predicate ShowTrackingCode(symbol: Option<int>) {
    symbol == Some(Toman)
  }

  /** Hash and tracking code are never asked for together, a tracking code
      is asked for exactly when the rate is not, and the rate field is shown
      exactly when the create request will carry a rate. */
  lemma FieldVisibility(info: InvoiceInfo, customer: Option<int>, invoiceType: Option<int>, symbol: Option<int>)
    ensures !(ShowTxId(symbol, invoiceType) && ShowTrackingCode(symbol))
    ensures ShowRate(symbol) <==> !ShowTrackingCode(symbol)
    ensures IsSet(customer) && IsSet(invoiceType) && IsSet(symbol) ==>
      (ShowRate(symbol) <==> CreateRequestFor(info, customer, invoiceType, symbol).value.rate.Some?)
  {
  }

  /** The value shown by a select: the id's numeral, or "" for no selection (0 included). */
  function SelectValue(selected: Option<int>): (r: string)
    ensures r == "" <==> !IsSet(selected)
  {
    if IsSet(selected) then IntToString(selected.value) else ""
  }

  /** `val ? Number(val) : null` of the select's change handler. */
  function SelectedId(val: string): (r: Option<NumberValue>)
    ensures r.None? <==> val == ""
  {
    if val != "" then Some(JsNumber(val)) else None
  }

  /** Choosing an option and reading it back gives its id; no selection gives none. */
  lemma SelectRoundTrip(selected: Option<int>)
    requires selected.Some? ==> selected.value >= 0
    ensures IsSet(selected) ==> SelectedId(SelectValue(selected)) == Some(Finite(selected.value))
    ensures !IsSet(selected) ==> SelectedId(SelectValue(selected)).None?
  {
    if IsSet(selected) {
      DigitsValueOfNatToString(selected.value);
    }
  }

  /** The create-invoice modal's display strings over the page's form. */
  class CreateInvoiceModal {
    const page: SanadPage
    const format: int -> string
    var amountDisplay: string
    var rateDisplay: string

    constructor (page: SanadPage, format: int -> string, amountDisplay: string, rateDisplay: string)
      ensures this.page == page && this.format == format
      ensures this.amountDisplay == amountDisplay && this.rateDisplay == rateDisplay
    {
      this.page := page;
      this.format := format;
      this.amountDisplay := amountDisplay;
      this.rateDisplay := rateDisplay;
    }

    /** Amount `onChange`: rejected text changes nothing; accepted text is
        shown as typed and its value becomes the amount, nothing else changes. */
    method AmountChanged(value: string)
      modifies this`amountDisplay, page`info
      ensures NumberInputAccepted(value) ==>
        amountDisplay == value && page.info == old(page.info).(amount := AcceptedValue(value))
      ensures !NumberInputAccepted(value) ==> amountDisplay == old(amountDisplay) && page.info == old(page.info)
    {
      if NumberInputAccepted(value) {
        amountDisplay := value;
        var n := RemoveCommaFromNumber(value);
        if n.Finite? {
          page.info := page.info.(amount := n.value);
        }
      }
    }

    /** Amount `onBlur`: a positive amount is shown formatted. */
    method AmountBlurred()
      modifies this`amountDisplay
      ensures page.info.amount > 0 ==> amountDisplay == format(page.info.amount)
      ensures page.info.amount <= 0 ==> amountDisplay == old(amountDisplay)
    {
      if page.info.amount > 0 {
        amountDisplay := format(page.info.amount);
      }
    }

    /** Rate `onChange`: the same filter and parse as the amount, on the rate. */
    method RateChanged(value: string)
      modifies this`rateDisplay, page`info
      ensures NumberInputAccepted(value) ==>
        rateDisplay == value && page.info == old(page.info).(rate := AcceptedValue(value))
      ensures !NumberInputAccepted(value) ==> rateDisplay == old(rateDisplay) && page.info == old(page.info)
    {
      if NumberInputAccepted(value) {
        rateDisplay := value;
        var n := RemoveCommaFromNumber(value);
        if n.Finite? {
          page.info := page.info.(rate := n.value);
        }
      }
    }

    /** Rate `onBlur`: a positive rate is shown formatted. */
    method RateBlurred()
      modifies this`rateDisplay
      ensures page.info.rate > 0 ==> rateDisplay == format(page.info.rate)
      ensures page.info.rate <= 0 ==> rateDisplay == old(rateDisplay)
    {
      if page.info.rate > 0 {
        rateDisplay := format(page.info.rate);
      }
    }

    /** Cancel: the modal closes and the form and selections reset. */
    method Cancel()
      modifies page`isCreateOpen, page`info, page`selectedCustomer, page`selectedType, page`selectedSymbol
      ensures !page.isCreateOpen && page.info == EmptyInvoiceInfo()
      ensures page.selectedCustomer.None? && page.selectedType.None? && page.selectedSymbol.None?
    {
      page.isCreateOpen := false;
      page.ResetInvoiceInfo();
    }
  }

  /** The edit-invoice modal, with its rate input corrected to follow the
      create modal's rule: the digit-and-comma filter and formatting on blur.
      `rateDisplay` exists only for that corrected input; the source's rate
      input shows `digitSeparator(rate)` instead (`AsWrittenRateChanged`). */
  class EditInvoiceModal {
    const page: SanadPage
    const format: int -> string
    var amountDisplay: string
    var rateDisplay: string

    constructor (page: SanadPage, format: int -> string, amountDisplay: string, rateDisplay: string)
      ensures this.page == page && this.format == format
      ensures this.amountDisplay == amountDisplay && this.rateDisplay == rateDisplay
    {
      this.page := page;
      this.format := format;
      this.amountDisplay := amountDisplay;
      this.rateDisplay := rateDisplay;
    }

    method AmountChanged(value: string)
      modifies this`amountDisplay, page`info
      ensures NumberInputAccepted(value) ==>
        amountDisplay == value && page.info == old(page.info).(amount := AcceptedValue(value))
      ensures !NumberInputAccepted(value) ==> amountDisplay == old(amountDisplay) && page.info == old(page.info)
    {
      if NumberInputAccepted(value) {
        amountDisplay := value;
        var n := RemoveCommaFromNumber(value);
        if n.Finite? {
          page.info := page.info.(amount := n.value);
        }
      }
    }

    method AmountBlurred()
      modifies this`amountDisplay
      ensures page.info.amount > 0 ==> amountDisplay == format(page.info.amount)
      ensures page.info.amount <= 0 ==> amountDisplay == old(amountDisplay)
    {
      if page.info.amount > 0 {
        amountDisplay := format(page.info.amount);
      }
    }

    /** Rate `onChange`: only digit-and-comma text reaches the rate, which is
        then always a finite number; other fields are kept. */
    method RateChanged(value: string)
      modifies this`rateDisplay, page`info
      ensures NumberInputAccepted(value) ==>
        rateDisplay == value && page.info == old(page.info).(rate := AcceptedValue(value))
      ensures !NumberInputAccepted(value) ==> rateDisplay == old(rateDisplay) && page.info == old(page.info)
    {
      if NumberInputAccepted(value) {
        rateDisplay := value;
        var n := RemoveCommaFromNumber(value);
        if n.Finite? {
          page.info := page.info.(rate := n.value);
        }
      }
    }

    method RateBlurred()
      modifies this`rateDisplay
      ensures page.info.rate > 0 ==> rateDisplay == format(page.info.rate)
      ensures page.info.rate <= 0 ==> rateDisplay == old(rateDisplay)
    {
      if page.info.rate > 0 {
        rateDisplay := format(page.info.rate);
      }
    }

    /** Cancel: the modal closes, the selected invoice is cleared and the form resets. */
    method Cancel()
      modifies page`isEditOpen, page`selectedInvoice, page`info
      modifies page`selectedCustomer, page`selectedType, page`selectedSymbol
      ensures !page.isEditOpen && page.selectedInvoice.None? && page.info == EmptyInvoiceInfo()
      ensures page.selectedCustomer.None? && page.selectedType.None? && page.selectedSymbol.None?
    {
      page.isEditOpen := false;
      page.selectedInvoice := None;
      page.ResetInvoiceInfo();
    }
  }
}

/**
  The two-step login form: phone number and password first, then a
  six-digit code typed or pasted into six one-character slots, and the
  rules that decide when the form may be submitted.
 */
module Login {
  import opened Wrappers
  import opened Text

  const CodeLength := 6
  const LoginFailed := "The login details are incorrect"

  datatype Step = LoginStep | CodeStep

  datatype FormValues = FormValues(phoneNumber: string, password: string, remember: bool)

  /** What the first step keeps for the second. */
  datatype Credentials = Credentials(phoneNumber: string, password: string)

  /** Arguments of the provider's `login` call. */
  datatype LoginCall = LoginCall(phoneNumber: string, password: string, code: string)

  /** Phone number: required, at least 10 characters. */
  predicate PhoneValid(phone: string) {
    phone != "" && |phone| >= 10
  }

  /** Password: required, 3 to 50 characters. */
  predicate PasswordValid(password: string) {
    password != "" && 3 <= |password| <= 50
  }

  predicate ValuesValid(values: FormValues) {
    PhoneValid(values.phoneNumber) && PasswordValid(values.password)
  }

  /** "Required" adds nothing to the length bounds: the rules are exactly
      at least 10 phone characters and 3 to 50 password characters. */
  lemma ValidationRules(values: FormValues)
    ensures ValuesValid(values) <==>
      |values.phoneNumber| >= 10 && 3 <= |values.password| <= 50
  {
  }

  /** A slot holds nothing or one ASCII digit (`/^[0-9]?$/`). */
  predicate IsSlotValue(v: string) {
    v == "" || (|v| == 1 && IsAsciiDigit(v[0]))
  }

  predicate SlotsValid(slots: seq<string>) {
    forall i :: 0 <= i < |slots| ==> IsSlotValue(slots[i])
  }

  /** `codeInputs.join('')`. */
  function Join(slots: seq<string>): string {
    if slots == [] then "" else slots[0] + Join(slots[1..])
  }

  /** Joining complete slots gives one digit per slot, in order. */
  lemma {:induction false} JoinOfFullSlots(slots: seq<string>)
    requires forall i :: 0 <= i < |slots| ==> |slots[i]| == 1 && IsAsciiDigit(slots[i][0])
    ensures |Join(slots)| == |slots| && AllDigits(Join(slots))
    ensures forall i :: 0 <= i < |slots| ==> Join(slots)[i] == slots[i][0]
    decreases |slots|
  {
    if slots != [] {
      JoinOfFullSlots(slots[1..]);
      assert Join(slots) == slots[0] + Join(slots[1..]);
      forall i | 0 <= i < |slots|
        ensures Join(slots)[i] == slots[i][0]
      {
        if i > 0 {
          assert Join(slots)[i] == Join(slots[1..])[i - 1];
          assert slots[1..][i - 1] == slots[i];
        }
      }
    }
  }

  /** The slots after writing `digits` from slot 0 on, as far as the slots go. */
  function Filled(slots: seq<string>, digits: string): (r: seq<string>)
    ensures |r| == |slots|
    ensures forall i :: 0 <= i < |r| && i < |digits| ==> r[i] == [digits[i]]
    ensures forall i :: |digits| <= i < |r| ==> r[i] == slots[i]
  {
    seq(|slots|, i requires 0 <= i < |slots| => if i < |digits| then [digits[i]] else slots[i])
  }

  lemma FilledNothing(slots: seq<string>)
    ensures Filled(slots, "") == slots
  {
  }

  /** Writing one more digit changes one more slot. */
  lemma FilledOneMore(slots: seq<string>, digits: string, i: nat)
    requires i < |digits| && i < |slots|
    ensures Filled(slots, digits[..i + 1]) == Filled(slots, digits[..i])[i := [digits[i]]]
  {
  }

  /** Digits beyond the last slot are dropped (`slice(0, codeInputs.length)`). */
  lemma FilledBeyond(slots: seq<string>, digits: string, n: nat)
    requires n == if |digits| < |slots| then |digits| else |slots|
    ensures Filled(slots, digits[..n]) == Filled(slots, digits)
  {
  }

  /** `handlePaste`: unless the trimmed text is a non-empty digit string, the
      slots stay; otherwise its first digits fill the first slots. */
  function PasteResult(slots: seq<string>, text: string): (r: seq<string>)
    ensures |r| == |slots|
  {
    var t := Trim(text);
    if t != "" && AllDigits(t) then Filled(slots, t) else slots
  }

  /** A paste never leaves an invalid slot behind. */
  lemma PastePreservesSlots(slots: seq<string>, text: string)
    requires SlotsValid(slots)
    ensures SlotsValid(PasteResult(slots, text))
  {
    var t := Trim(text);
    if t != "" && AllDigits(t) {
      var r := Filled(slots, t);
      forall i | 0 <= i < |r|
        ensures IsSlotValue(r[i])
      {
        if i < |t| {
          assert r[i] == [t[i]];
        }
      }
    }
  }

  /** Pasting a code of six or more digits makes the joined code its first six digits. */
  lemma PasteFillsCode(slots: seq<string>, text: string)
    requires |slots| == CodeLength
    requires Trim(text) != "" && AllDigits(Trim(text)) && |Trim(text)| >= CodeLength
    ensures Join(PasteResult(slots, text)) == Trim(text)[..CodeLength]
  {
    var t := Trim(text);
    var r := PasteResult(slots, text);
    assert forall i :: 0 <= i < |r| ==> r[i] == [t[i]];
    JoinOfFullSlots(r);
  }

  /** Whether the submit button is disabled. */
  predicate SubmitDisabled(loading: bool, isSubmitting: bool, step: Step, slots: seq<string>) {
    loading || isSubmitting || (step == CodeStep && exists i :: 0 <= i < |slots| && slots[i] == "")
  }

  /** In the code step an enabled button means a complete six-digit code. */
  lemma EnabledMeansCompleteCode(loading: bool, isSubmitting: bool, slots: seq<string>)
    requires |slots| == CodeLength && SlotsValid(slots)
    requires !SubmitDisabled(loading, isSubmitting, CodeStep, slots)
    ensures |Join(slots)| == CodeLength && AllDigits(Join(slots))
  {
    JoinOfFullSlots(slots);
  }

  /** Conversely, six typed digits enable the button unless a request is under way. */
  lemma CompleteCodeEnables(slots: seq<string>)
    requires forall i :: 0 <= i < |slots| ==> |slots[i]| == 1 && IsAsciiDigit(slots[i][0])
    ensures !SubmitDisabled(false, false, CodeStep, slots)
  {
  }

  /** The login form's state; `codeInputs` is the six-slot code buffer. */
  class LoginForm {
    var step: Step
    const codeInputs: array<string>
    var twoFactorData: Option<Credentials>
    var loading: bool
    var status: Option<string>

    /** Six valid slots, and the code step always has the first step's credentials. */
    ghost predicate Valid()
      reads this, codeInputs
    {
      codeInputs.Length == CodeLength
      && SlotsValid(codeInputs[..])
      && (step == CodeStep ==> twoFactorData.Some?)
    }

    constructor ()
      ensures Valid() && fresh(codeInputs)
      ensures step == LoginStep && twoFactorData.None? && !loading && status.None?
      ensures codeInputs[..] == ["", "", "", "", "", ""]
    {
      step := LoginStep;
      codeInputs := new string[CodeLength](i => "");
      twoFactorData := None;
      loading := false;
      status := None;
    }

    /** `handleInputChange`: a value that is not empty or one digit is
        ignored; otherwise it overwrites slot `index` and no other. */
    method InputChange(index: nat, value: string)
      requires Valid() && index < CodeLength
      modifies codeInputs
      ensures Valid()
      ensures IsSlotValue(value) ==> codeInputs[..] == old(codeInputs[..])[index := value]
      ensures !IsSlotValue(value) ==> codeInputs[..] == old(codeInputs[..])
    {
      if !(value == "" || (|value| == 1 && '0' <= value[0] <= '9')) {
        return;
      }
      codeInputs[index] := value;
    }

    /** `handlePaste`: the slots become `PasteResult` of the old slots. */
    method Paste(text: string)
      requires Valid()
      modifies codeInputs
      ensures Valid()
      ensures codeInputs[..] == PasteResult(old(codeInputs[..]), text)
    {
      ghost var before := codeInputs[..];
      PastePreservesSlots(before, text);
      var t := Trim(text);
      if !(t != "" && AllDigits(t)) {
        return;
      }
      var n := if |t| < codeInputs.Length then |t| else codeInputs.Length;
      FilledNothing(before);
      for i := 0 to n
        invariant codeInputs[..] == Filled(before, t[..i])
      {
        FilledOneMore(before, t, i);
        codeInputs[i] := [t[i]];
      }
      FilledBeyond(before, t, n);
    }

    /** `onSubmit` with the form values, whether a login function is provided,
        and the backend's verdict. Invalid values never reach it. The first
        step stores the credentials and moves to the code step without any
        call; the code step calls login with the stored credentials and the
        joined code. A missing login function or a failed login sets the
        error status. Loading is off when it returns. */
    method Submit(values: FormValues, loginAvailable: bool, loginSucceeded: bool) returns (call: Option<LoginCall>)
      requires Valid()
      modifies this`step, this`twoFactorData, this`loading, this`status
      ensures Valid()
      ensures !ValuesValid(values) ==>
        call.None? && step == old(step) && twoFactorData == old(twoFactorData)
        && loading == old(loading) && status == old(status)
      ensures ValuesValid(values) ==> !loading
      ensures ValuesValid(values) && !loginAvailable ==>
        call.None? && status == Some(LoginFailed) && step == old(step) && twoFactorData == old(twoFactorData)
      ensures ValuesValid(values) && loginAvailable && old(step) == LoginStep ==>
        call.None? && step == CodeStep && status == old(status)
        && twoFactorData == Some(Credentials(values.phoneNumber, values.password))
      ensures ValuesValid(values) && loginAvailable && old(step) == CodeStep ==>
        && step == CodeStep && twoFactorData == old(twoFactorData)
        && call == Some(LoginCall(old(twoFactorData).value.phoneNumber, old(twoFactorData).value.password, Join(codeInputs[..])))
        && status == (if loginSucceeded then old(status) else Some(LoginFailed))
    {
      if !ValuesValid(values) {
        return None;
      }
      loading := true;
      if !loginAvailable {
        status := Some(LoginFailed);
        loading := false;
        return None;
      }
      if step == LoginStep {
        twoFactorData := Some(Credentials(values.phoneNumber, values.password));
        step := CodeStep;
        loading := false;
        return None;
      }
      if twoFactorData.Some? {
        var code := Join(codeInputs[..]);
        call := Some(LoginCall(twoFactorData.value.phoneNumber, twoFactorData.value.password, code));
        if !loginSucceeded {
          status := Some(LoginFailed);
        }
      } else {
        call := None;
      }
      loading := false;
    }
  }
}

/**
  The customer panel under the customer-management table: the create/edit
  form buffer, the selected customer, the balance summary of the info modal,
  and how a balance's sign is labelled and coloured.
 */
module Customers {
  import opened Wrappers

  datatype Customer = Customer(
    id: int,
    firstName: string,
    lastName: string,
    phoneNumber: string,
    customerCode: string,
    description: string)

  /** The form buffer: the four fields a user can edit. */
  datatype CustomerInfo = CustomerInfo(
    firstName: string,
    lastName: string,
    phoneNumber: string,
    description: string)

  datatype CustomerField = FirstName | LastName | PhoneNumber | Description

  /** Per-currency balances of one customer. */
  datatype CustomerSummary = CustomerSummary(irt: real, tether: real, pm: real)

  datatype EditCustomerRequest = EditCustomerRequest(id: int, info: CustomerInfo)

  datatype Standing = Creditor | Debtor | NoDebt

  /** The sign of a balance: positive is owed to the customer, negative is owed by the customer. */
  function StandingOf(balance: real): (s: Standing)
    ensures s == Creditor <==> balance > 0.0
    ensures s == Debtor <==> balance < 0.0
    ensures s == NoDebt <==> balance == 0.0
  {
    if balance > 0.0 then Creditor else if balance < 0.0 then Debtor else NoDebt
  }

  function StandingLabel(s: Standing): string {
    match s
    case Creditor => "بستانکار"
    case Debtor => "بدهکار"
    case NoDebt => "بدون بدهی"
  }

  /** The label under each balance of the info modal (toman, tether and Perfect Money alike). */
  function BalanceLabel(balance: real): (r: string)
    ensures r == StandingLabel(StandingOf(balance))
  {
    if balance > 0.0 then "بستانکار" else if balance < 0.0 then "بدهکار" else "بدون بدهی"
  }

  /** Each balance gets exactly one of the three labels, and the label tells the sign. */
  lemma BalanceLabelDeterminesSign(a: real, b: real)
    ensures BalanceLabel(a) == BalanceLabel(b) <==> StandingOf(a) == StandingOf(b)
  {
    assert StandingLabel(Creditor) != StandingLabel(Debtor) by {
      assert StandingLabel(Creditor)[0] != StandingLabel(Debtor)[1];
      assert |StandingLabel(Creditor)| != |StandingLabel(Debtor)|;
    }
    assert |StandingLabel(NoDebt)| != |StandingLabel(Creditor)|;
    assert |StandingLabel(NoDebt)| != |StandingLabel(Debtor)|;
  }

  const Green := "text-green-600"
  const Red := "text-red-600"
  const Gray900 := "text-gray-900"
  const Gray500 := "text-gray-500"

  /** Colour class of a balance figure: green above zero, red below, dark gray at zero. */
  function AmountColour(balance: real): string {
    if balance > 0.0 then Green else if balance < 0.0 then Red else Gray900
  }

  /** Colour class of the label under a balance: as the figure, but light gray at zero. */
  function LabelColour(balance: real): string {
    if balance > 0.0 then Green else if balance < 0.0 then Red else Gray500
  }

  /** Figure and label share a colour exactly when the balance is not zero,
      and each colour class names one standing. */
  lemma ColoursFollowStanding(a: real, b: real)
    ensures AmountColour(a) == LabelColour(a) <==> a != 0.0
    ensures AmountColour(a) == AmountColour(b) <==> StandingOf(a) == StandingOf(b)
    ensures LabelColour(a) == LabelColour(b) <==> StandingOf(a) == StandingOf(b)
  {
    assert Gray900[10] != Gray500[10];
    assert |Green| != |Red| && |Green| != |Gray900| && |Red| != |Gray900|;
    assert |Green| != |Gray500| && |Red| != |Gray500|;
  }

  function EmptyInfo(): CustomerInfo {
    CustomerInfo("", "", "", "")
  }

  /** What the edit-load effect copies out of the selected customer. */
  function InfoOf(c: Customer): (r: CustomerInfo)
    ensures r.firstName == c.firstName && r.lastName == c.lastName
    ensures r.phoneNumber == c.phoneNumber && r.description == c.description
  {
    CustomerInfo(c.firstName, c.lastName, c.phoneNumber, c.description)
  }

  /** What an edit means for the stored customer: the four editable fields
      are replaced, id and customer code are kept. */
  function ApplyEdit(c: Customer, info: CustomerInfo): (r: Customer)
    ensures r.id == c.id && r.customerCode == c.customerCode
  {
    c.(firstName := info.firstName, lastName := info.lastName,
       phoneNumber := info.phoneNumber, description := info.description)
  }

  /** Saving the form as loaded changes nothing, and the form shows what was saved. */
  lemma EditFormLaws(c: Customer, info: CustomerInfo)
    ensures ApplyEdit(c, InfoOf(c)) == c
    ensures InfoOf(ApplyEdit(c, info)) == info
  {
  }

  /** One `onChange` handler of the form: only the named field changes. */
  function UpdateField(info: CustomerInfo, f: CustomerField, value: string): (r: CustomerInfo)
    ensures f == FirstName ==> r == info.(firstName := value)
    ensures f == LastName ==> r == info.(lastName := value)
    ensures f == PhoneNumber ==> r == info.(phoneNumber := value)
    ensures f == Description ==> r == info.(description := value)
  {
    match f
    case FirstName => info.(firstName := value)
    case LastName => info.(lastName := value)
    case PhoneNumber => info.(phoneNumber := value)
    case Description => info.(description := value)
  }

  /** The request `handleEditCustomer` sends: none without a selected
      customer, otherwise its id and the four form fields. */
  function EditRequestFor(selected: Option<Customer>, info: CustomerInfo): (r: Option<EditCustomerRequest>)
    ensures r.Some? <==> selected.Some?
    ensures r.Some? ==> r.value.id == selected.value.id && r.value.info == info
  {
    if selected.None? then None else Some(EditCustomerRequest(selected.value.id, info))
  }

  /** State of the customer-management panel: the form, the selection shared
      with the table, the modal flags and the info modal's summary. */
  class CustomerPanel {
    var info: CustomerInfo
    var selected: Option<Customer>
    var summary: Option<CustomerSummary>
    var infoLoading: bool
    var isCreateOpen: bool
    var isEditOpen: bool
    var isInfoOpen: bool
    var refreshCount: nat

    constructor ()
      ensures info == EmptyInfo() && selected.None? && summary.None? && !infoLoading
      ensures !isCreateOpen && !isEditOpen && !isInfoOpen && refreshCount == 0
    {
      info := EmptyInfo();
      selected := None;
      summary := None;
      infoLoading := false;
      isCreateOpen, isEditOpen, isInfoOpen := false, false, false;
      refreshCount := 0;
    }

    /** `resetCustomerInfo`: all four fields become empty. */
    method ResetCustomerInfo()
      modifies this`info
      ensures info == EmptyInfo()
    {
      info := CustomerInfo("", "", "", "");
    }

    method EditField(f: CustomerField, value: string)
      modifies this`info
      ensures info == UpdateField(old(info), f, value)
    {
      info := UpdateField(info, f, value);
    }

    /** The table's edit button: select the row and open the edit modal. */
    method OpenEdit(c: Customer)
      modifies this`selected, this`isEditOpen
      ensures selected == Some(c) && isEditOpen
    {
      selected := Some(c);
      isEditOpen := true;
    }

    /** The edit-load effect: with the edit modal open and a customer
        selected, the form takes exactly that customer's four fields. */
    method LoadEditForm()
      modifies this`info
      ensures isEditOpen && selected.Some? ==> info == InfoOf(selected.value)
      ensures !(isEditOpen && selected.Some?) ==> info == old(info)
    {
      if isEditOpen && selected.Some? {
        var c := selected.value;
        info := CustomerInfo(c.firstName, c.lastName, c.phoneNumber, c.description);
      }
    }

    /** `handleEditCustomer`: nothing without a selection; otherwise the
        request is sent and, when the backend reports success, the modal
        closes, the selection and the form are cleared and the table reloads. */
    method HandleEditCustomer(succeeded: bool) returns (request: Option<EditCustomerRequest>)
      modifies this`info, this`selected, this`isEditOpen, this`refreshCount
      ensures request == EditRequestFor(old(selected), old(info))
      ensures request.Some? && succeeded ==>
        !isEditOpen && selected.None? && info == EmptyInfo() && refreshCount == old(refreshCount) + 1
      ensures !(request.Some? && succeeded) ==>
        isEditOpen == old(isEditOpen) && selected == old(selected) && info == old(info)
        && refreshCount == old(refreshCount)
    {
      if selected.None? {
        return None;
      }
      request := Some(EditCustomerRequest(selected.value.id, info));
      if succeeded {
        isEditOpen := false;
        selected := None;
        ResetCustomerInfo();
        refreshCount := refreshCount + 1;
      }
    }

    /** `handleCreateCustomer`: the form is sent as it is; on success the
        modal closes, the form is cleared and the table reloads. */
    method HandleCreateCustomer(succeeded: bool) returns (request: CustomerInfo)
      modifies this`info, this`isCreateOpen, this`refreshCount
      ensures request == old(info)
      ensures succeeded ==> !isCreateOpen && info == EmptyInfo() && refreshCount == old(refreshCount) + 1
      ensures !succeeded ==> isCreateOpen == old(isCreateOpen) && info == old(info) && refreshCount == old(refreshCount)
    {
      request := info;
      if succeeded {
        isCreateOpen := false;
        ResetCustomerInfo();
        refreshCount := refreshCount + 1;
      }
    }

    /** The edit modal's cancel button. */
    method CancelEdit()
      modifies this`info, this`selected, this`isEditOpen
      ensures !isEditOpen && selected.None? && info == EmptyInfo()
    {
      isEditOpen := false;
      selected := None;
      ResetCustomerInfo();
    }

    /** The create modal's cancel button. */
    method CancelCreate()
      modifies this`info, this`isCreateOpen
      ensures !isCreateOpen && info == EmptyInfo()
    {
      isCreateOpen := false;
      ResetCustomerInfo();
    }

    /** The table's details button: select the row and open the info modal. */
    method OpenInfo(c: Customer)
      modifies this`selected, this`isInfoOpen
      ensures selected == Some(c) && isInfoOpen
    {
      selected := Some(c);
      isInfoOpen := true;
    }

    /** The summary-load effect with the backend's answer as `result`: the
        service answers None for a failed request, and that None is stored
        like a summary. With the info modal open and a customer selected the
        answer replaces the summary and loading ends; otherwise nothing happens. */
    method LoadSummary(result: Option<CustomerSummary>)
      modifies this`summary, this`infoLoading
      ensures isInfoOpen && selected.Some? ==> summary == result && !infoLoading
      ensures !(isInfoOpen && selected.Some?) ==> summary == old(summary) && infoLoading == old(infoLoading)
    {
      if isInfoOpen && selected.Some? {
        infoLoading := true;
        summary := result;
        infoLoading := false;
      }
    }

    /** The info modal's close button clears the selection and the summary. */
    method CloseInfo()
      modifies this`isInfoOpen, this`selected, this`summary
      ensures !isInfoOpen && selected.None? && summary.None?
    {
      isInfoOpen := false;
      selected := None;
      summary := None;
    }
  }
}

/**
  The invoice ("sanad") page: the option lists of transaction types and
  currency symbols, the invoice form with its required-field guard and the
  create/update requests, the list request's filters and the truncated
  cells of the invoice table.

  Symbol ids: 1 is tether, 2 Perfect Money (never offered), 3 toman, which
  carries no rate. Type ids 1 and 2 are the two types that exclude toman.
 */
module Sanad {
  import opened Wrappers
  import opened Text
  import CustomerTables

  datatype Enum = Enum(id: int, title: string)

  /** The form record of the invoice modals. */
  datatype InvoiceInfo = InvoiceInfo(
    amount: int,
    rate: int,
    symbol: Enum,
    invoiceType: Enum,
    description: string,
    txId: string,
    customerId: int)

  datatype Invoice = Invoice(
    id: int,
    amount: int,
    rate: int,
    symbol: Enum,
    invoiceType: Enum,
    description: string,
    txId: string,
    customerId: int)

  /** Body of the create request; `rate` None is a field left undefined. */
  datatype CreateInvoiceRequest = CreateInvoiceRequest(
    amount: int,
    rate: Option<int>,
    symbol: int,
    invoiceType: int,
    description: string,
    txId: string,
    customerId: int)

  datatype UpdateInvoiceRequest = UpdateInvoiceRequest(
    id: int,
    amount: int,
    rate: int,
    symbol: int,
    invoiceType: int,
    description: string,
    txId: string,
    customerId: int)

  /** Arguments of the invoice list request; None is a filter left undefined. */
  datatype InvoiceQuery = InvoiceQuery(
    params: CustomerTables.GridParams,
    keyword: string,
    invoiceType: Option<int>,
    symbol: Option<int>)

  const PerfectMoney := 2
  const Toman := 3

  const UserWord := "کاربر"
  const CustomerWord := "مشتری"

  /** `transformTypeTitle`: every "user" in a type title becomes "customer"
      (both words have five letters, so the length is kept). */
  function TransformTypeTitle(title: string): (r: string)
    ensures |r| == |title|
    ensures !Occurs(r, UserWord)
    ensures !Occurs(title, UserWord) ==> r == title
  {
    ReplaceAllRemovesPattern(title, UserWord, CustomerWord);
    ReplaceAllLength(title, UserWord, CustomerWord);
    if Occurs(title, UserWord) then ReplaceAll(title, UserWord, CustomerWord)
    else
      ReplaceAllWithoutMatch(title, UserWord, CustomerWord);
      ReplaceAll(title, UserWord, CustomerWord)
  }

  /** The first "user" of a title becomes "customer", the text before it is
      kept, and the rest of the title is rewritten in the same way. */
  lemma TransformTypeTitleReplaces(a: string, b: string)
    requires forall i :: 0 <= i < |a| ==> a[i] != UserWord[0]
    ensures TransformTypeTitle(a + UserWord + b) == a + CustomerWord + TransformTypeTitle(b)
  {
    assert a + UserWord + b == a + (UserWord + b);
    ReplaceAllCopiesPlain(a, UserWord + b, UserWord, CustomerWord);
    ReplaceAllMatch(b, UserWord, CustomerWord);
  }

  /** "type of user" becomes "type of customer". */
  lemma TransformTypeTitleExample()
    ensures TransformTypeTitle("نوع کاربر") == "نوع مشتری"
  {
    var a := "نوع ";
    assert "نوع کاربر" == a + UserWord + "";
    TransformTypeTitleReplaces(a, "");
    ReplaceAllWithoutMatch("", UserWord, CustomerWord);
    assert a + CustomerWord + "" == "نوع مشتری";
  }

  /** The loaded types with rewritten titles, in order, ids unchanged. */
  function TransformTypes(types: seq<Enum>): (r: seq<Enum>)
    ensures |r| == |types|
    ensures forall i :: 0 <= i < |r| ==> r[i].id == types[i].id && r[i].title == TransformTypeTitle(types[i].title)
  {
    if types == [] then []
    else [types[0].(title := TransformTypeTitle(types[0].title))] + TransformTypes(types[1..])
  }

  /** No loaded type title mentions "user". */
  lemma TransformedTitlesClean(types: seq<Enum>)
    ensures forall e :: e in TransformTypes(types) ==> !Occurs(e.title, UserWord)
  {
    var r := TransformTypes(types);
    forall e | e in r
      ensures !Occurs(e.title, UserWord)
    {
      var i :| 0 <= i < |r| && r[i] == e;
    }
  }

  /** `xs.filter(e => e.id is not in ids)`. */
  function WithoutIds(xs: seq<Enum>, ids: set<int>): (r: seq<Enum>)
    ensures |r| <= |xs|
    ensures forall e :: e in r <==> e in xs && e.id !in ids
  {
    if xs == [] then []
    else if xs[0].id in ids then WithoutIds(xs[1..], ids)
    else [xs[0]] + WithoutIds(xs[1..], ids)
  }

  /** The filter keeps the order: filtering a concatenation filters each part. */
  lemma {:induction false} WithoutIdsAppend(a: seq<Enum>, b: seq<Enum>, ids: set<int>)
    ensures WithoutIds(a + b, ids) == WithoutIds(a, ids) + WithoutIds(b, ids)
    decreases |a|
  {
    if a == [] {
      assert a + b == b;
    } else {
      assert (a + b)[0] == a[0];
      assert (a + b)[1..] == a[1..] + b;
      WithoutIdsAppend(a[1..], b, ids);
    }
  }

  /** The loaded symbol list: every Perfect Money entry dropped, the rest kept in order. */
  function DropPerfectMoney(symbols: seq<Enum>): (r: seq<Enum>)
    ensures forall e :: e in r <==> e in symbols && e.id != PerfectMoney
  {
    WithoutIds(symbols, {PerfectMoney})
  }

  /** Symbol options: toman is not offered while type 1 or 2 is selected. */
  function SymbolOptions(symbols: seq<Enum>, selectedType: Option<int>): (r: seq<Enum>)
    ensures selectedType == Some(1) || selectedType == Some(2) ==>
      forall e :: e in r <==> e in symbols && e.id != Toman
    ensures !(selectedType == Some(1) || selectedType == Some(2)) ==> r == symbols
  {
    if selectedType == Some(1) || selectedType == Some(2) then WithoutIds(symbols, {Toman}) else symbols
  }

  /** Type options: types 1 and 2 are not offered while toman is selected. */
  function TypeOptions(types: seq<Enum>, selectedSymbol: Option<int>): (r: seq<Enum>)
    ensures selectedSymbol == Some(Toman) ==> forall e :: e in r <==> e in types && e.id != 1 && e.id != 2
    ensures selectedSymbol != Some(Toman) ==> r == types
  {
    if selectedSymbol == Some(Toman) then WithoutIds(types, {1, 2}) else types
  }

  /** Both option lists stay subsequences in the loaded order, and neither
      ever offers Perfect Money when built from the loaded symbols. */
  lemma OptionsNeverOfferPerfectMoney(symbols: seq<Enum>, selectedType: Option<int>)
    ensures forall e :: e in SymbolOptions(DropPerfectMoney(symbols), selectedType) ==> e.id != PerfectMoney
  {
  }

  /** A value the page's `!x` guard treats as set: present and not 0. */
  predicate IsSet(x: Option<int>) {
    x.Some? && x.value != 0
  }

  /** `handleCreateInvoice`: no request unless customer, type and symbol are
      set; toman invoices carry no rate, all others the form's rate. */
  function CreateRequestFor(info: InvoiceInfo, customer: Option<int>, invoiceType: Option<int>, symbol: Option<int>): (r: Option<CreateInvoiceRequest>)
    ensures r.Some? <==> IsSet(customer) && IsSet(invoiceType) && IsSet(symbol)
    ensures r.Some? ==> r.value.rate == (if symbol.value == Toman then None else Some(info.rate))
    ensures r.Some? ==>
      && r.value.customerId == customer.value && r.value.invoiceType == invoiceType.value
      && r.value.symbol == symbol.value && r.value.amount == info.amount
      && r.value.description == info.description && r.value.txId == info.txId
  {
    if !IsSet(customer) || !IsSet(invoiceType) || !IsSet(symbol) then None
    else
      Some(CreateInvoiceRequest(
        info.amount,
        if symbol.value == Toman then None else Some(info.rate),
        symbol.value, invoiceType.value, info.description, info.txId, customer.value))
  }

  /** `handleEditInvoiceSubmit`: as create, but also needs a selected invoice
      and always sends the form's rate. */
  function UpdateRequestFor(selected: Option<Invoice>, info: InvoiceInfo, customer: Option<int>, invoiceType: Option<int>, symbol: Option<int>): (r: Option<UpdateInvoiceRequest>)
    ensures r.Some? <==> selected.Some? && IsSet(customer) && IsSet(invoiceType) && IsSet(symbol)
    ensures r.Some? ==> r.value.id == selected.value.id && r.value.rate == info.rate
    ensures r.Some? ==>
      && r.value.customerId == customer.value && r.value.invoiceType == invoiceType.value
      && r.value.symbol == symbol.value && r.value.amount == info.amount
      && r.value.description == info.description && r.value.txId == info.txId
  {
    if selected.None? || !IsSet(customer) || !IsSet(invoiceType) || !IsSet(symbol) then None
    else
      Some(UpdateInvoiceRequest(
        selected.value.id, info.amount, info.rate,
        symbol.value, invoiceType.value, info.description, info.txId, customer.value))
  }

  /** What the edit-load effect puts in the form. */
  function InfoOfInvoice(inv: Invoice): (r: InvoiceInfo)
    ensures r.amount == inv.amount && r.rate == inv.rate && r.customerId == inv.customerId
    ensures r.symbol == inv.symbol && r.invoiceType == inv.invoiceType
    ensures r.description == inv.description && r.txId == inv.txId
  {
    InvoiceInfo(inv.amount, inv.rate, inv.symbol, inv.invoiceType, inv.description, inv.txId, inv.customerId)
  }

  /** Opening an invoice for editing and saving it untouched sends that invoice back. */
  lemma SaveUnchangedEdit(inv: Invoice)
    requires inv.customerId != 0 && inv.invoiceType.id != 0 && inv.symbol.id != 0
    ensures UpdateRequestFor(Some(inv), InfoOfInvoice(inv), Some(inv.customerId), Some(inv.invoiceType.id), Some(inv.symbol.id))
      == Some(UpdateInvoiceRequest(inv.id, inv.amount, inv.rate, inv.symbol.id, inv.invoiceType.id,
                                   inv.description, inv.txId, inv.customerId))
  {
  }

  /** A list filter argument: -1 ("all") is left out, any other id is sent as it is. */
  function FilterArg(filter: int): (r: Option<int>)
    ensures r.None? <==> filter == -1
    ensures r.Some? ==> r.value == filter
  {
    if filter != -1 then Some(filter) else None
  }

  /** `fetchInvoices`: grid parameters, the search text and both filters. */
  function InvoiceQueryFor(params: CustomerTables.GridParams, keyword: string, typeFilter: int, symbolFilter: int): (q: InvoiceQuery)
    ensures q.params == params && q.keyword == keyword
    ensures q.invoiceType.None? <==> typeFilter == -1
    ensures q.symbol.None? <==> symbolFilter == -1
    ensures q.invoiceType.Some? ==> q.invoiceType.value == typeFilter
    ensures q.symbol.Some? ==> q.symbol.value == symbolFilter
  {
    InvoiceQuery(params, keyword, FilterArg(typeFilter), FilterArg(symbolFilter))
  }

  /** The common rule of the long-text cells: "-" for empty text, the first
      `width` characters and "..." for longer text, the text itself otherwise. */
  function Truncated(s: string, width: nat): (r: string)
    ensures s == "" ==> r == "-"
    ensures s != "" && |s| <= width ==> r == s
    ensures |s| > width ==> r == s[..width] + "..."
    ensures 1 <= |r| <= width + 3
  {
    if s == "" then "-" else if |s| > width then s[..width] + "..." else s
  }

  /** The transaction-hash cell. */
  function TxIdCell(txId: string): (r: string)
    ensures r == Truncated(txId, 20)
  {
    if txId != "" then (if |txId| > 20 then txId[..20] + "..." else txId) else "-"
  }

  /** The description cell: written differently from the hash cell, same rule with width 30. */
  function DescriptionCell(description: string): (r: string)
    ensures r == Truncated(description, 30)
  {
    if description != "" && |description| > 30 then description[..30] + "..."
    else if description != "" then description else "-"
  }

  /** `removeCommaFromNumber`: `Number` of the text with all commas deleted. */
  function RemoveCommaFromNumber(value: string): (r: NumberValue)
    ensures r == JsNumber(Without(value, ','))
  {
    ReplaceCharByNothing(value, ',');
    JsNumber(ReplaceAll(value, ",", ""))
  }

  function EmptyInvoiceInfo(): InvoiceInfo {
    InvoiceInfo(0, 0, Enum(0, ""), Enum(0, ""), "", "", 0)
  }

  /** State of the invoice page. */
  class SanadPage {
    var searchQuery: string
    var typeFilter: int
    var symbolFilter: int
    var refreshKey: nat
    var isCreateOpen: bool
    var isEditOpen: bool
    var selectedInvoice: Option<Invoice>
    var types: seq<Enum>
    var symbols: seq<Enum>
    var filteredTypes: seq<Enum>
    var filteredSymbols: seq<Enum>
    var info: InvoiceInfo
    var selectedCustomer: Option<int>
    var selectedType: Option<int>
    var selectedSymbol: Option<int>

    constructor ()
      ensures searchQuery == "" && typeFilter == -1 && symbolFilter == -1 && refreshKey == 0
      ensures !isCreateOpen && !isEditOpen && selectedInvoice.None?
      ensures types == [] && symbols == [] && filteredTypes == [] && filteredSymbols == []
      ensures info == EmptyInvoiceInfo()
      ensures selectedCustomer.None? && selectedType.None? && selectedSymbol.None?
    {
      searchQuery := "";
      typeFilter, symbolFilter := -1, -1;
      refreshKey := 0;
      isCreateOpen, isEditOpen := false, false;
      selectedInvoice := None;
      types, symbols, filteredTypes, filteredSymbols := [], [], [], [];
      info := EmptyInvoiceInfo();
      selectedCustomer, selectedType, selectedSymbol := None, None, None;
    }

    /** The mount effect once both enum lists have arrived. */
    method LoadData(typesData: seq<Enum>, symbolsData: seq<Enum>)
      modifies this`types, this`symbols, this`filteredTypes, this`filteredSymbols
      ensures types == TransformTypes(typesData) && symbols == DropPerfectMoney(symbolsData)
      ensures filteredTypes == types && filteredSymbols == symbols
    {
      var transformed := TransformTypes(typesData);
      var kept := WithoutIds(symbolsData, {PerfectMoney});
      types := transformed;
      symbols := kept;
      filteredTypes := transformed;
      filteredSymbols := kept;
    }

    /** The filter effect that follows any change of the selections or lists. */
    method ApplySelectionFilters()
      modifies this`filteredTypes, this`filteredSymbols
      ensures filteredSymbols == SymbolOptions(symbols, selectedType)
      ensures filteredTypes == TypeOptions(types, selectedSymbol)
    {
      if selectedType == Some(1) || selectedType == Some(2) {
        filteredSymbols := WithoutIds(symbols, {Toman});
      } else {
        filteredSymbols := symbols;
      }
      if selectedSymbol == Some(Toman) {
        filteredTypes := WithoutIds(types, {1, 2});
      } else {
        filteredTypes := types;
      }
    }

    method SelectCustomer(v: Option<int>)
      modifies this`selectedCustomer
      ensures selectedCustomer == v
    {
      selectedCustomer := v;
    }

    method SelectType(v: Option<int>)
      modifies this`selectedType
      ensures selectedType == v
    {
      selectedType := v;
    }

    method SelectSymbol(v: Option<int>)
      modifies this`selectedSymbol
      ensures selectedSymbol == v
    {
      selectedSymbol := v;
    }

    /** `resetInvoiceInfo`: zero amounts, rate and customer, empty strings and
        enum references, and no selection. */
    method ResetInvoiceInfo()
      modifies this`info, this`selectedCustomer, this`selectedType, this`selectedSymbol
      ensures info == EmptyInvoiceInfo()
      ensures selectedCustomer.None? && selectedType.None? && selectedSymbol.None?
    {
      info := InvoiceInfo(0, 0, Enum(0, ""), Enum(0, ""), "", "", 0);
      selectedCustomer := None;
      selectedType := None;
      selectedSymbol := None;
    }

    /** `triggerRefresh`, the table's reload counter; also the toolbar search. */
    method TriggerRefresh()
      modifies this`refreshKey
      ensures refreshKey == old(refreshKey) + 1
    {
      refreshKey := refreshKey + 1;
    }

    /** `handleEditInvoice`: select the row and open the edit modal. */
    method OpenEdit(inv: Invoice)
      modifies this`selectedInvoice, this`isEditOpen
      ensures selectedInvoice == Some(inv) && isEditOpen
    {
      selectedInvoice := Some(inv);
      isEditOpen := true;
    }

    /** The edit-load effect: the form and the three selections take the selected invoice's values. */
    method LoadEditForm()
      modifies this`info, this`selectedCustomer, this`selectedType, this`selectedSymbol
      ensures isEditOpen && selectedInvoice.Some? ==>
        var inv := selectedInvoice.value;
        info == InfoOfInvoice(inv) && selectedCustomer == Some(inv.customerId)
        && selectedType == Some(inv.invoiceType.id) && selectedSymbol == Some(inv.symbol.id)
      ensures !(isEditOpen && selectedInvoice.Some?) ==>
        info == old(info) && selectedCustomer == old(selectedCustomer)
        && selectedType == old(selectedType) && selectedSymbol == old(selectedSymbol)
    {
      if isEditOpen && selectedInvoice.Some? {
        var inv := selectedInvoice.value;
        info := InvoiceInfo(inv.amount, inv.rate, inv.symbol, inv.invoiceType, inv.description, inv.txId, inv.customerId);
        selectedCustomer := Some(inv.customerId);
        selectedType := Some(inv.invoiceType.id);
        selectedSymbol := Some(inv.symbol.id);
      }
    }

    /** `handleCreateInvoice` with the backend's verdict as `succeeded`: on
        success the modal closes, the form resets and the table reloads. */
    method HandleCreateInvoice(succeeded: bool) returns (request: Option<CreateInvoiceRequest>)
      modifies this`info, this`selectedCustomer, this`selectedType, this`selectedSymbol
      modifies this`isCreateOpen, this`refreshKey
      ensures request == CreateRequestFor(old(info), old(selectedCustomer), old(selectedType), old(selectedSymbol))
      ensures request.Some? && succeeded ==>
        !isCreateOpen && info == EmptyInvoiceInfo() && selectedCustomer.None? && selectedType.None?
        && selectedSymbol.None? && refreshKey == old(refreshKey) + 1
      ensures !(request.Some? && succeeded) ==>
        isCreateOpen == old(isCreateOpen) && info == old(info) && selectedCustomer == old(selectedCustomer)
        && selectedType == old(selectedType) && selectedSymbol == old(selectedSymbol)
        && refreshKey == old(refreshKey)
    {
      request := CreateRequestFor(info, selectedCustomer, selectedType, selectedSymbol);
      if request.None? {
        return;
      }
      if succeeded {
        isCreateOpen := false;
        ResetInvoiceInfo();
        TriggerRefresh();
      }
    }

    /** `handleEditInvoiceSubmit`: on success the modal closes, the selected
        invoice is cleared, the form resets and the table reloads. */
    method HandleEditInvoiceSubmit(succeeded: bool) returns (request: Option<UpdateInvoiceRequest>)
      modifies this`info, this`selectedCustomer, this`selectedType, this`selectedSymbol
      modifies this`isEditOpen, this`selectedInvoice, this`refreshKey
      ensures request == UpdateRequestFor(old(selectedInvoice), old(info), old(selectedCustomer), old(selectedType), old(selectedSymbol))
      ensures request.Some? && succeeded ==>
        !isEditOpen && selectedInvoice.None? && info == EmptyInvoiceInfo() && selectedCustomer.None?
        && selectedType.None? && selectedSymbol.None? && refreshKey == old(refreshKey) + 1
      ensures !(request.Some? && succeeded) ==>
        isEditOpen == old(isEditOpen) && selectedInvoice == old(selectedInvoice) && info == old(info)
        && selectedCustomer == old(selectedCustomer) && selectedType == old(selectedType)
        && selectedSymbol == old(selectedSymbol) && refreshKey == old(refreshKey)
    {
      request := UpdateRequestFor(selectedInvoice, info, selectedCustomer, selectedType, selectedSymbol);
      if request.None? {
        return;
      }
      if succeeded {
        isEditOpen := false;
        selectedInvoice := None;
        ResetInvoiceInfo();
        TriggerRefresh();
      }
    }

    /** The arguments of the next list request. */
    function NextQuery(params: CustomerTables.GridParams): (q: InvoiceQuery)
      reads this
      ensures q == InvoiceQueryFor(params, searchQuery, typeFilter, symbolFilter)
    {
      InvoiceQueryFor(params, searchQuery, typeFilter, symbolFilter)
    }
  }
}

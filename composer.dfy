/**
 The submission logic of the expense tracker page: the draft a user types,
 the guards the two submit buttons apply to it, and the ledger write requests
 they build. Everything here is a value; the page object that holds the draft
 and records the requests is in module HomePage.
 */
module Composer {

  datatype Option<T> = None | Some(value: T)

  /** The ledger contract every write request is addressed to. */
  const ContractAddress: string := "0xYOUR_CONTRACT_ADDRESS"

  /** The four pieces of input state the page keeps: expense description,
      amount as typed, the chosen tag names in option order, and the name
      typed into the "new tag" box. */
  datatype Draft = Draft(description: string, amount: string, selectedTags: seq<string>, newTag: string)

  /** Every field starts out empty. */
  const EmptyDraft: Draft := Draft("", "", [], "")

  /** The two contract functions the page calls. */
  datatype ContractFunction = AddExpense | CreateTag

  /** The argument list of a write: description, amount in wei, tag names. */
  datatype Args = Args(description: string, amount: int, tags: seq<string>)

  /** One call handed to the wallet client. */
  datatype WriteRequest = WriteRequest(address: string, functionName: ContractFunction, args: Args)

  /** JavaScript truthiness of a string: only the empty string is falsy. */
  predicate Truthy(s: string)
  {
    s != ""
  }

  /** The guard of the "Add Expense" button. */
  predicate ExpenseDraftComplete(d: Draft)
  {
    Truthy(d.description) && Truthy(d.amount) && |d.selectedTags| != 0
  }

  /** The argument list both submit handlers send, taken from the expense
      part of the draft; `parseEther` is the decimal-to-wei conversion of the
      client library, left uninterpreted. */
  function ExpenseArgs(d: Draft, parseEther: string -> int): (a: Args)
  {
    Args(d.description, parseEther(d.amount), d.selectedTags)
  }

  /** The request "Add Expense" emits, or None when the guard stops it. */
  function AddExpenseCommand(d: Draft, parseEther: string -> int): (r: Option<WriteRequest>)
    ensures r.None? <==> d.description == "" || d.amount == "" || d.selectedTags == []
    ensures r.Some? ==> r.value.address == ContractAddress && r.value.functionName == AddExpense
    ensures r.Some? ==> r.value.args == Args(d.description, parseEther(d.amount), d.selectedTags)
  {
    if ExpenseDraftComplete(d) then Some(WriteRequest(ContractAddress, AddExpense, ExpenseArgs(d, parseEther)))
    else None
  }

  /** The request "Create Tag" emits, or None when the tag name is empty.
      As in the page itself, its arguments come from the expense draft and
      not from the new tag name. */
  function CreateTagCommand(d: Draft, parseEther: string -> int): (r: Option<WriteRequest>)
    ensures r.None? <==> d.newTag == ""
    ensures r.Some? ==> r.value.address == ContractAddress && r.value.functionName == CreateTag
    ensures r.Some? ==> r.value.args == Args(d.description, parseEther(d.amount), d.selectedTags)
  {
    if Truthy(d.newTag) then Some(WriteRequest(ContractAddress, CreateTag, ExpenseArgs(d, parseEther)))
    else None
  }

  /** Only emptiness is checked: a blank-looking description and the amount
      text "0" both get through. */
  lemma GuardChecksOnlyEmptiness(parseEther: string -> int)
    ensures AddExpenseCommand(Draft(" ", "0", ["food"], ""), parseEther).Some?
    ensures AddExpenseCommand(Draft("\t", "-1", [""], ""), parseEther).Some?
  {
  }

  /** The tag name typed into the box has no influence on what "Create Tag"
      sends, once it is non-empty. */
  lemma CreateTagIgnoresNewTag(d: Draft, name: string, parseEther: string -> int)
    requires d.newTag != "" && name != ""
    ensures CreateTagCommand(d.(newTag := name), parseEther) == CreateTagCommand(d, parseEther)
  {
  }

  /** When both buttons would go through, "Create Tag" sends exactly the
      arguments of "Add Expense", to a different contract function. */
  lemma CreateTagCopiesExpenseArgs(d: Draft, parseEther: string -> int)
    requires ExpenseDraftComplete(d) && d.newTag != ""
    ensures CreateTagCommand(d, parseEther).Some? && AddExpenseCommand(d, parseEther).Some?
    ensures CreateTagCommand(d, parseEther).value.args == AddExpenseCommand(d, parseEther).value.args
    ensures CreateTagCommand(d, parseEther).value.functionName != AddExpenseCommand(d, parseEther).value.functionName
  {
  }

  /** One option of the multi-select list: its value (a tag name) and
      whether it is currently selected. */
  datatype SelectOption = SelectOption(value: string, selected: bool)

  /** The values of the selected options, in option order: what the
      selection handler stores as the new tag selection. */
  function SelectedValues(options: seq<SelectOption>): (r: seq<string>)
    ensures |r| <= |options|
    ensures forall v :: v in r <==> exists i :: 0 <= i < |options| && options[i].selected && options[i].value == v
  {
    if options == [] then []
    else
      var rest := SelectedValues(options[1..]);
      assert forall i :: 0 < i < |options| ==> options[i] == options[1..][i - 1];
      if options[0].selected then [options[0].value] + rest else rest
  }

  /** Selection keeps option order: selecting from a list made of two parts
      gives the selection of the first part followed by that of the second. */
  lemma {:induction false} SelectedValuesAppend(a: seq<SelectOption>, b: seq<SelectOption>)
    ensures SelectedValues(a + b) == SelectedValues(a) + SelectedValues(b)
  {
    if a == [] {
      assert a + b == b;
    } else {
      assert (a + b)[1..] == a[1..] + b;
      SelectedValuesAppend(a[1..], b);
    }
  }

  /** Selecting every option yields all option values, in order. */
  lemma {:induction false} SelectAllKeepsEveryValue(options: seq<SelectOption>)
    requires forall i :: 0 <= i < |options| ==> options[i].selected
    ensures |SelectedValues(options)| == |options|
    ensures forall i :: 0 <= i < |options| ==> SelectedValues(options)[i] == options[i].value
  {
    if options != [] {
      SelectAllKeepsEveryValue(options[1..]);
    }
  }
}

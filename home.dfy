/**
 The `Home` page component as an object: its four pieces of input state,
 the change handlers that overwrite them, and the two submit handlers, whose
 only effect is handing one write request to the wallet client. That
 hand-over is recorded by appending to `outbox`.
 */
module HomePage {
  import opened Composer
  import Session

  class Home {
    /** The client library's decimal-to-wei conversion, left uninterpreted. */
    const parseEther: string -> int

    var description: string
    var amount: string
    var selectedTags: seq<string>
    var newTag: string

    /** The write requests handed to the wallet client, oldest first. */
    var outbox: seq<WriteRequest>

    /** The draft the four fields make up. */
    function CurrentDraft(): (d: Draft)
      reads this
    {
      Draft(description, amount, selectedTags, newTag)
    }

    /** The page as a value, for the session lemmas. */
    function Snapshot(): (s: Session.PageState)
      reads this
    {
      Session.PageState(CurrentDraft(), outbox)
    }

    /** First render: every field empty, nothing issued. */
    constructor (parseEther: string -> int)
      ensures this.parseEther == parseEther
      ensures description == "" && amount == "" && selectedTags == [] && newTag == ""
      ensures outbox == []
      ensures Snapshot() == Session.Initial
    {
      this.parseEther := parseEther;
      description, amount, selectedTags, newTag := "", "", [], "";
      outbox := [];
    }

    /** Typing in the "Tag name" box. */
    method SetNewTag(value: string)
      modifies this`newTag
      ensures newTag == value
      ensures Snapshot() == Session.Step(old(Snapshot()), Session.NewTagInput(value), parseEther)
    {
      newTag := value;
    }

    /** Typing in the "Description" box. */
    method SetDescription(value: string)
      modifies this`description
      ensures description == value
      ensures Snapshot() == Session.Step(old(Snapshot()), Session.DescriptionInput(value), parseEther)
    {
      description := value;
    }

    /** Typing in the "Amount (ETH)" box; the text is kept as typed. */
    method SetAmount(value: string)
      modifies this`amount
      ensures amount == value
      ensures Snapshot() == Session.Step(old(Snapshot()), Session.AmountInput(value), parseEther)
    {
      amount := value;
    }

    /** Changing the selection in the tag list: the selection becomes the
        values of the selected options, in option order. */
    method SelectTags(options: seq<SelectOption>)
      modifies this`selectedTags
      ensures selectedTags == SelectedValues(options)
      ensures forall v :: v in selectedTags <==>
        exists i :: 0 <= i < |options| && options[i].selected && options[i].value == v
      ensures Snapshot() == Session.Step(old(Snapshot()), Session.TagSelectionChanged(options), parseEther)
    {
      selectedTags := SelectedValues(options);
    }

    /** Pressing "Add Expense": if description, amount and tag selection are
        all non-empty, one addExpense request goes out; the draft is kept. */
    method HandleAddExpense()
      modifies this`outbox
      ensures ExpenseDraftComplete(CurrentDraft()) ==>
        outbox == old(outbox) + [WriteRequest(ContractAddress, AddExpense, Args(description, parseEther(amount), selectedTags))]
      ensures !ExpenseDraftComplete(CurrentDraft()) ==> outbox == old(outbox)
      ensures Snapshot() == Session.Step(old(Snapshot()), Session.AddExpensePressed, parseEther)
    {
      if description == "" || amount == "" || |selectedTags| == 0 {
        return;
      }
      outbox := outbox + [WriteRequest(ContractAddress, AddExpense, Args(description, parseEther(amount), selectedTags))];
    }

    /** Pressing "Create Tag": if the tag name is non-empty, one createTag
        request goes out, carrying the expense draft's fields; the draft is
        kept. */
    method HandleCreateTag()
      modifies this`outbox
      ensures newTag != "" ==>
        outbox == old(outbox) + [WriteRequest(ContractAddress, CreateTag, Args(description, parseEther(amount), selectedTags))]
      ensures newTag == "" ==> outbox == old(outbox)
      ensures Snapshot() == Session.Step(old(Snapshot()), Session.CreateTagPressed, parseEther)
    {
      if newTag == "" {
        return;
      }
      outbox := outbox + [WriteRequest(ContractAddress, CreateTag, Args(description, parseEther(amount), selectedTags))];
    }
  }
}

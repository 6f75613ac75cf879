/**
 A browsing session of the expense tracker page as a sequence of user
 events, handled one at a time. Each event either replaces one draft field
 (the input boxes and the tag list) or presses one of the two submit buttons,
 which may append a write request to the outbox of requests handed to the
 wallet client.
 */
module Session {
  import opened Composer

  /** What the page holds: its draft and the requests it has issued so far. */
  datatype PageState = PageState(draft: Draft, outbox: seq<WriteRequest>)

  /** The page as first rendered: empty draft, nothing issued. */
  const Initial: PageState := PageState(EmptyDraft, [])

  /** The input events the page is wired to. */
  datatype Event =
    | NewTagInput(value: string)
    | CreateTagPressed
    | DescriptionInput(value: string)
    | AmountInput(value: string)
    | TagSelectionChanged(options: seq<SelectOption>)
    | AddExpensePressed

  /** Button presses; every other event only edits the draft. */
  predicate IsSubmit(e: Event)
  {
    e.CreateTagPressed? || e.AddExpensePressed?
  }

  /** The outbox after handing over the request a handler built, if any. */
  function Issue(outbox: seq<WriteRequest>, c: Option<WriteRequest>): (r: seq<WriteRequest>)
  {
    match c
    case None => outbox
    case Some(req) => outbox + [req]
  }

  /** The page's reaction to one event. */
  function Step(s: PageState, e: Event, parseEther: string -> int): (t: PageState)
    ensures IsSubmit(e) ==> t.draft == s.draft
    ensures !IsSubmit(e) ==> t.outbox == s.outbox
    ensures |s.outbox| <= |t.outbox| <= |s.outbox| + 1 && t.outbox[..|s.outbox|] == s.outbox
  {
    match e
    case NewTagInput(v) => s.(draft := s.draft.(newTag := v))
    case CreateTagPressed => s.(outbox := Issue(s.outbox, CreateTagCommand(s.draft, parseEther)))
    case DescriptionInput(v) => s.(draft := s.draft.(description := v))
    case AmountInput(v) => s.(draft := s.draft.(amount := v))
    case TagSelectionChanged(options) => s.(draft := s.draft.(selectedTags := SelectedValues(options)))
    case AddExpensePressed => s.(outbox := Issue(s.outbox, AddExpenseCommand(s.draft, parseEther)))
  }

  /** The state after handling the events in order. */
  function Run(s: PageState, events: seq<Event>, parseEther: string -> int): (t: PageState)
    decreases |events|
  {
    if events == [] then s else Run(Step(s, events[0], parseEther), events[1..], parseEther)
  }

  /** The number of button presses among the events. */
  function Presses(events: seq<Event>): (n: nat)
  {
    if events == [] then 0 else (if IsSubmit(events[0]) then 1 else 0) + Presses(events[1..])
  }

  /** The events with the button presses removed. */
  function Edits(events: seq<Event>): (r: seq<Event>)
    ensures forall i :: 0 <= i < |r| ==> !IsSubmit(r[i])
  {
    if events == [] then []
    else if IsSubmit(events[0]) then Edits(events[1..])
    else [events[0]] + Edits(events[1..])
  }

  /** Requests are only ever added at the end, at most one per press: what
      was handed over stays handed over. */
  lemma {:induction false} RunOnlyAppends(s: PageState, events: seq<Event>, parseEther: string -> int)
    ensures |s.outbox| <= |Run(s, events, parseEther).outbox| <= |s.outbox| + Presses(events)
    ensures Run(s, events, parseEther).outbox[..|s.outbox|] == s.outbox
    decreases |events|
  {
    if events != [] {
      var t := Step(s, events[0], parseEther);
      RunOnlyAppends(t, events[1..], parseEther);
      assert Run(s, events, parseEther).outbox[..|t.outbox|] == t.outbox;
      assert t.outbox[..|s.outbox|] == s.outbox;
    }
  }

  /** The draft a run ends with depends on the starting draft only, not on
      what was issued before. */
  lemma {:induction false} RunDraftIgnoresOutbox(s1: PageState, s2: PageState, events: seq<Event>, parseEther: string -> int)
    requires s1.draft == s2.draft
    ensures Run(s1, events, parseEther).draft == Run(s2, events, parseEther).draft
    decreases |events|
  {
    if events != [] {
      RunDraftIgnoresOutbox(Step(s1, events[0], parseEther), Step(s2, events[0], parseEther), events[1..], parseEther);
    }
  }

  /** Submitting never clears or changes the draft: the draft a run ends
      with is the one the edits alone produce, and the edits alone issue
      nothing. */
  lemma {:induction false} DraftIsShapedByEditsOnly(s: PageState, events: seq<Event>, parseEther: string -> int)
    ensures Run(s, events, parseEther).draft == Run(s, Edits(events), parseEther).draft
    ensures Run(s, Edits(events), parseEther).outbox == s.outbox
    decreases |events|
  {
    if events != [] {
      var t := Step(s, events[0], parseEther);
      DraftIsShapedByEditsOnly(t, events[1..], parseEther);
      if IsSubmit(events[0]) {
        RunDraftIgnoresOutbox(t, s, Edits(events[1..]), parseEther);
        DraftIsShapedByEditsOnly(s, events[1..], parseEther);
      } else {
        assert Edits(events) == [events[0]] + Edits(events[1..]);
        assert Edits(events)[1..] == Edits(events[1..]);
      }
    }
  }

  /** Every addExpense request in an outbox carries a non-empty description
      and at least one tag. */
  ghost predicate AddExpenseRequestsComplete(outbox: seq<WriteRequest>)
  {
    forall i :: 0 <= i < |outbox| && outbox[i].functionName == AddExpense ==>
      outbox[i].args.description != "" && outbox[i].args.tags != []
  }

  /** No sequence of events makes the page issue an addExpense request with
      an empty description or no tags. */
  lemma {:induction false} RunKeepsAddExpenseRequestsComplete(s: PageState, events: seq<Event>, parseEther: string -> int)
    requires AddExpenseRequestsComplete(s.outbox)
    ensures AddExpenseRequestsComplete(Run(s, events, parseEther).outbox)
    decreases |events|
  {
    if events != [] {
      var t := Step(s, events[0], parseEther);
      assert AddExpenseRequestsComplete(t.outbox) by {
        forall i | 0 <= i < |t.outbox| && t.outbox[i].functionName == AddExpense
          ensures t.outbox[i].args.description != "" && t.outbox[i].args.tags != []
        {
          if i < |s.outbox| {
            assert t.outbox[i] == s.outbox[i];
          }
        }
      }
      RunKeepsAddExpenseRequestsComplete(t, events[1..], parseEther);
    }
  }

  /** Since the draft is kept, pressing "Add Expense" twice issues the same
      request twice. */
  lemma PressingTwiceIssuesTwice(s: PageState, parseEther: string -> int)
    requires ExpenseDraftComplete(s.draft)
    ensures var t := Run(s, [AddExpensePressed, AddExpensePressed], parseEther);
      |t.outbox| == |s.outbox| + 2 && t.outbox[|s.outbox|] == t.outbox[|s.outbox| + 1]
  {
    var t1 := Step(s, AddExpensePressed, parseEther);
    assert Run(s, [AddExpensePressed, AddExpensePressed], parseEther) == Step(t1, AddExpensePressed, parseEther) by {
      assert [AddExpensePressed, AddExpensePressed][1..] == [AddExpensePressed];
      assert [AddExpensePressed][1..] == [];
    }
  }

  /** On a fresh page, typing a tag name and pressing "Create Tag" issues a
      createTag request with an empty description, the amount of the empty
      text and no tags; the typed name appears nowhere in it. */
  lemma FreshPageCreateTag(name: string, parseEther: string -> int)
    requires name != ""
    ensures Run(Initial, [NewTagInput(name), CreateTagPressed], parseEther).outbox
         == [WriteRequest(ContractAddress, CreateTag, Args("", parseEther(""), []))]
  {
    var t1 := Step(Initial, NewTagInput(name), parseEther);
    assert [NewTagInput(name), CreateTagPressed][1..] == [CreateTagPressed];
    assert [CreateTagPressed][1..] == [];
    assert Run(Initial, [NewTagInput(name), CreateTagPressed], parseEther) == Step(t1, CreateTagPressed, parseEther);
  }
}

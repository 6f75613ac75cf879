# Expense tracker page: draft and submit model

This project models the client-side logic of the expense tracker's single
page component (`Home`). The page keeps four pieces of input state: the
expense description, the amount as typed, the selected tag names and the
name typed into the "new tag" box. Input events overwrite one field each.
Two buttons submit: "Add Expense" and "Create Tag". Each checks a guard and,
if the guard passes, hands one write request to the wallet client.

The model has three modules:

- `Composer` (composer.dfy) holds the values: the `Draft`, the
  `WriteRequest` a handler builds, the guards (JavaScript truthiness, so only
  `""` is empty), the two request builders `AddExpenseCommand` and
  `CreateTagCommand`, and `SelectedValues`, which turns the options of the
  multi-select list into the new tag selection.
- `Session` (session.dfy) treats a visit to the page as a sequence of
  events handled one at a time (`Step`, `Run`). It proves properties that
  span several events: requests are only appended, drafts survive
  submission, and every addExpense request has a non-empty description and
  at least one tag.
- `HomePage` (home.dfy) is the component as a class. It has the four draft
  fields and an `outbox` of issued requests. Setter methods overwrite one
  field each. The two handler methods append to `outbox`. Each method is
  proved to move the object exactly as `Session.Step` moves its value.

The page hands requests to `writeContract`. That hand-over is modelled as
appending the request to `outbox`. `parseEther`, the library's decimal-to-wei
conversion, is a total function `string -> int` that the page object
receives at construction. Nothing about its rounding or its errors is
assumed.

The "Create Tag" handler sends the expense draft's description, amount and
selected tags, not the typed tag name. This is reproduced as written.
`CreateTagIgnoresNewTag`, `CreateTagCopiesExpenseArgs` and
`FreshPageCreateTag` state the consequences. A handler that sent only the
typed name is not modelled.

## Model

| member | source | states |
|---|---|---|
| `Composer.AddExpenseCommand` | frontend/src/app/pages/expenseTracker.tsx:32-41 | No request exactly when the description, the amount text or the tag selection is empty. Otherwise one addExpense request to the contract address, carrying the description, `parseEther(amount)` and the selected tags in order. |
| `Composer.CreateTagCommand` | frontend/src/app/pages/expenseTracker.tsx:43-52 | No request exactly when the new tag name is empty. Otherwise one createTag request carrying the expense draft's description, `parseEther(amount)` and selected tags. |
| `Composer.GuardChecksOnlyEmptiness` | frontend/src/app/pages/expenseTracker.tsx:33 | Two sample drafts pass the add-expense guard: one with a blank description and amount `"0"`, one with a tab description, amount `"-1"` and a tag named `""`. The general fact, that only emptiness is checked, is the iff in `AddExpenseCommand`'s contract. |
| `Composer.CreateTagIgnoresNewTag` | frontend/src/app/pages/expenseTracker.tsx:44-50 | Once non-empty, the typed tag name has no effect on the createTag request: any two non-empty names give the same request. |
| `Composer.CreateTagCopiesExpenseArgs` | frontend/src/app/pages/expenseTracker.tsx:35-50 | When both guards pass, createTag sends the same argument list as addExpense, to a different contract function. |
| `Composer.SelectedValues` | frontend/src/app/pages/expenseTracker.tsx:99-102 | The new selection holds a value exactly when some selected option has that value, and it is no longer than the option list. |
| `Composer.SelectedValuesAppend` | frontend/src/app/pages/expenseTracker.tsx:100 | The selection keeps option order: the selection of a concatenated option list is the concatenation of the selections. |
| `Composer.SelectAllKeepsEveryValue` | frontend/src/app/pages/expenseTracker.tsx:100 | With every option selected, the selection is the list of all option values, position by position. |
| `Session.Step` | frontend/src/app/pages/expenseTracker.tsx:32-102 | A button press leaves the draft unchanged. An input event issues nothing. Each event appends at most one request and keeps earlier requests in place. |
| `Session.RunOnlyAppends` | frontend/src/app/pages/expenseTracker.tsx:32-52 | Over any event sequence, the earlier outbox stays a prefix, with at most one new request per button press. |
| `Session.DraftIsShapedByEditsOnly` | frontend/src/app/pages/expenseTracker.tsx:32-52 | Submitting never clears or changes the draft. After any event sequence, the draft is the one its input events alone produce, and those alone issue nothing. |
| `Session.RunKeepsAddExpenseRequestsComplete` | frontend/src/app/pages/expenseTracker.tsx:33-39 | No event sequence issues an addExpense request with an empty description or an empty tag list. |
| `Session.PressingTwiceIssuesTwice` | frontend/src/app/pages/expenseTracker.tsx:32-41 | The draft is kept after a submission, so pressing "Add Expense" twice on a complete draft issues two identical requests. |
| `Session.FreshPageCreateTag` | frontend/src/app/pages/expenseTracker.tsx:10-52 | On a fresh page, typing a tag name and pressing "Create Tag" issues exactly one createTag request, with an empty description, `parseEther("")` and no tags. |
| `HomePage.Home.constructor` | frontend/src/app/pages/expenseTracker.tsx:10-13 | All four fields start empty, nothing is issued, and the state equals `Session.Initial`. |
| `HomePage.Home.SetNewTag` | frontend/src/app/pages/expenseTracker.tsx:65 | Replaces only `newTag`, as `Session.Step` does for a tag-name input. |
| `HomePage.Home.SetDescription` | frontend/src/app/pages/expenseTracker.tsx:85 | Replaces only `description`, as `Session.Step` does for a description input. |
| `HomePage.Home.SetAmount` | frontend/src/app/pages/expenseTracker.tsx:92 | Replaces only `amount`, with the text as typed. |
| `HomePage.Home.SelectTags` | frontend/src/app/pages/expenseTracker.tsx:99-102 | Replaces only `selectedTags`, wholesale, with the selected options' values in option order. |
| `HomePage.Home.HandleAddExpense` | frontend/src/app/pages/expenseTracker.tsx:32-41 | Appends exactly one addExpense request when the guard passes and nothing otherwise. Changes only the outbox. |
| `HomePage.Home.HandleCreateTag` | frontend/src/app/pages/expenseTracker.tsx:43-52 | Appends exactly one createTag request, carrying the expense draft, when the tag name is non-empty, and nothing otherwise. Changes only the outbox. |

## Left out

- Ledger reads (`getUserExpenses`, `getUserTags`, expenseTracker.tsx:18-30) are network queries through the wallet client, so they are not modelled. The loaded tags only feed the option list, and the option list is an input of `SelectTags`.
- The connected account (`useAccount`, line 9) and the contract ABI belong to the wallet client and ABI module. Neither is part of this model. Requests record only the contract address, the function name and the arguments.
- `writeContract` (lines 16, 35, 46) is modelled only as appending to `outbox`. Its asynchronous dispatch, receipts and failures are not modelled.
- `parseEther` is an uninterpreted total function. The library's rounding is not modelled, and neither is its rejection of malformed decimal text. A `parseEther` that throws, so that no request goes out, is therefore outside the model.
- The amount box has `type='number'`, so a browser reports non-numeric text as `""`. This is browser behaviour; the model lets any text through as the amount.
- The display conversion `parseFloat(expense.amount) / 1e18` (line 127) uses floating point and only produces display text, so it is not modelled.
- The markup and the `.map` loops that render tags and expenses (lines 54-140) are presentation. The only part modelled is which handler each input and button calls (`Session.Step`).
- The page does not check that the amount is positive or has at most 18 fractional digits, that a new tag name is not a duplicate, or that selected tags were loaded; the model adds none of these.

# Transaction form and balance controller

This project models the controller inside the `App` component of the budget
front end (`src/App.jsx`). The component keeps a list of revenue and expense
entries ("REVENUE" / "DEPENSE") that a REST backend owns. It shows their
running balance and lets the user create, edit and delete entries through a
validated form.

The model has four modules:

- `Transactions` (`transactions.dfy`): the entry as the server sends it, and
  `Balance`, the reference definition of the signed sum the page shows. It also
  holds the lemmas about `Balance`: the revenue-minus-others closed form,
  concatenation, appending one entry, removing one entry, and independence from
  list order.
- `Validation` (`validation.dfy`): the description and date validators. This
  covers JavaScript's white-space set (shared by `\s` and `String.prototype.trim`),
  `trim` itself, the character class `[a-zA-ZÀ-ÿ\s]`, and the three error
  messages.
- `App` (`app.dfy`): the component as a class. Its fields are the `useState`
  hooks: the list, the four draft fields, the balance, `editingId`, the two
  error fields and `loading`. It has one method per handler. `CalculateBalance`
  keeps the source's `forEach` loop and proves it against `Balance`. Each
  network call is replaced by the answer the server gave, passed in as a
  parameter: `Succeeded`/`Failed` for save and delete, and the returned list or
  `None` for the GET. The class invariant `Valid()` holds between handlers.
  It says three things: the balance shown is the balance of the list shown, no
  request is in flight, and each error field holds nothing or one of its
  validator's messages.
- `Scenarios` (`scenarios.dfy`): sequences of user actions, followed through the
  handlers' contracts only. They cover saving a salary and refreshing, saving
  the description "123", editing a row and saving it again unchanged, and
  deleting an unknown id.

Three behaviours of the code are easy to misread:

- Every type other than exactly "REVENUE" is subtracted. The form offers
  "DEPENSE", not "EXPENSE".
- `editingId` is tested for truthiness, so a row whose id is 0 is created again
  rather than updated.
- The refresh after a save or a delete is not awaited. `loading` therefore drops
  before the refreshed list arrives. The model has the handler return `refresh`
  and treats the fetch as a later, separate `FetchTransactions` step.

## Model

| member | source | states |
|---|---|---|
| `Transactions.BalanceIsRevenueMinusOthers` | src/App.jsx:43-53 | the balance equals the total of the amounts of entries whose type is exactly "REVENUE" minus the total of the amounts of all other entries |
| `Transactions.BalanceConcat` | src/App.jsx:43-53 | the balance of two lists put together is the sum of their balances |
| `Transactions.BalanceAppend` | src/App.jsx:45-51 | appending one entry moves the balance by +amount when its type is "REVENUE" and by -amount for any other type |
| `Transactions.BalanceRemove` | src/App.jsx:43-53 | dropping the entry at index k moves the balance by minus that entry's signed amount |
| `Transactions.BalanceReorder` | src/App.jsx:43-53 | two lists holding the same entries in any order have the same balance, so the server's order does not matter |
| `Validation.Text` | src/App.jsx:58-71 | an error field's text is empty exactly when it holds no error, which is the truthiness the form tests |
| `Validation.ContentStart` | src/App.jsx:57 | the index of the first non-white-space character from a position on: everything skipped is white space, and the character found is not |
| `Validation.ContentEnd` | src/App.jsx:57 | the index just past the last non-white-space character before a position: everything skipped is white space, and the character before it is not |
| `Validation.Trim` | src/App.jsx:57 | `value.trim()` is the input with a blank prefix and a blank suffix removed; it is empty exactly when every character is JavaScript white space, and otherwise starts and ends with a non-white-space character |
| `Validation.DescriptionError` | src/App.jsx:55-67 | the description is accepted exactly when it is non-blank and every character is an ASCII letter, in U+00C0..U+00FF or white space; a blank value gets "La description est requise", a non-blank value with any other character "La description ne peut contenir que des lettres" |
| `Validation.DateError` | src/App.jsx:69-76 | the date is rejected with "La date est obligatoire" exactly when it is empty; any other text is accepted |
| `Validation.DigitRejected` | src/App.jsx:56-63 | a description containing a digit anywhere is rejected with the letters-only message |
| `Validation.AcceptedDescriptions` | src/App.jsx:56-66 | "Salaire" is accepted, and so is "a×b", because the Latin-1 range includes the multiplication sign |
| `Validation.RejectedDescriptions` | src/App.jsx:56-63 | "123" gets the letters-only message; "" and a tab between spaces get the required message |
| `App.AppComponent.constructor` | src/App.jsx:6-18 | the initial state: empty list, draft ('', 'REVENUE', 0, ''), balance 0, `editingId` null, both errors empty, `loading` false |
| `App.AppComponent.CalculateBalance` | src/App.jsx:43-53 | the forEach loop stores exactly `Balance(list)`, which is the revenue total minus the other total, and 0 for the empty list |
| `App.AppComponent.FetchTransactions` | src/App.jsx:30-41 | a successful GET replaces the list and sets the balance to the balance of the new list; a failed one leaves both as they were; the draft, mode and errors never change; `loading` is false afterwards on both paths |
| `App.AppComponent.ValidateDescription` | src/App.jsx:55-67 | the trim-then-regex check returns true exactly when the stored message is empty, and stores the message `DescriptionError` gives for the value |
| `App.AppComponent.ValidateDate` | src/App.jsx:69-76 | returns true exactly when the value is non-empty, and stores the message `DateError` gives for it |
| `App.AppComponent.ChangeDescription` | src/App.jsx:148-151 | typing stores the value and re-validates it at once |
| `App.AppComponent.ChangeDate` | src/App.jsx:178-181 | changing the date stores it and re-validates it at once |
| `App.AppComponent.ChangeKind` | src/App.jsx:159-166 | the selector stores "REVENUE" or "DEPENSE" |
| `App.AppComponent.ChangeAmount` | src/App.jsx:167-173 | the amount input stores the number |
| `App.AppComponent.SaveTransaction` | src/App.jsx:78-107 | both validators always run and both error fields are updated; if either rejects, nothing is sent and draft, mode, list, balance and `loading` are unchanged; otherwise an update of `editingId` is sent when it is truthy and a creation when it is not (an id of 0 creates); only a success resets the draft to ('', 'REVENUE', 0, '') and the mode to create, and asks for a refresh |
| `App.AppComponent.Submit` | src/App.jsx:86-106 | the request body is the current draft; on success `editingId` becomes null, the draft is reset and both errors are cleared; on failure draft, mode and errors are kept; the list and balance do not change; `loading` is false on both paths |
| `App.AppComponent.EditTransaction` | src/App.jsx:109-117 | `editingId` becomes the row's id; description, type and amount are copied; the date is the row's calendar date (empty for an empty date); both errors are cleared; list, balance and `loading` are unchanged |
| `App.AppComponent.DeleteTransaction` | src/App.jsx:119-129 | the request sent is the DELETE of the given id; a refresh is asked for exactly when the DELETE succeeded; the list, balance, draft, mode and errors are unchanged; `loading` is false on both paths |
| `Scenarios.AddSalary` | src/App.jsx:78-107 | saving "Salaire", REVENUE, 50000, "2024-01-05" in create mode sends exactly that creation and empties the form; after the refresh returns the list with the new row appended, the balance has grown by 50000 |
| `Scenarios.SaveDigits` | src/App.jsx:78-84 | saving the description "123" sends nothing whatever the server would answer, shows the letters-only error, and keeps the typed text and the list |
| `Scenarios.EditAndResave` | src/App.jsx:78-117 | editing a valid row and saving it unchanged sends the row's own description, type and amount with its calendar date: an update of the row when its id is non-zero, a creation when it is 0 |
| `Scenarios.DeleteUnknown` | src/App.jsx:119-129 | deleting an id no row shown carries still sends the DELETE of that id; when it fails no refresh is asked for, and the handler keeps list and balance, and leaves `loading` false |

## Left out

- JSX rendering and styling (src/App.jsx:131-252) are not modelled. The buttons
  are disabled while `loading` is set. In the model every handler runs to
  completion and `Valid()` keeps `loading` false between handlers, so that rule
  always holds.
- The axios calls and the REST backend are not modelled. What the server does
  with a POST, PUT or DELETE (adding, changing or removing a row) belongs to the
  server. The model takes the list the next GET returns as an input.
- src/api/axiosConfig.js and vite.config.js are not part of this model. `App.jsx`
  does not import the former, and the latter is development-server
  configuration. The backend's `/transactions/balance` endpoint is never called
  by the component.
- `formatDateForInput` (src/App.jsx:20-24) is only partly modelled. It parses
  with JavaScript `Date` and formats with `toISOString`, so its result depends on
  the time zone. The model keeps its empty-string branch and takes the
  calendar-date text as the parameter `isoDate`. An unparsable date, which makes
  `toISOString` throw, is not modelled.
- Amounts are integers. Floating-point sums, `parseFloat` and NaN
  (src/App.jsx:170) are not modelled.
- Asynchronous interleaving is not modelled:
  - The state while a request is in flight, with `loading` true, is internal to
    each handler.
  - Edits typed while a save is pending are not modelled.
  - The fire-and-forget refresh is a separate later `FetchTransactions` call.
- The initial `useEffect` fetch (src/App.jsx:26-28) is not a separate member. It
  is the constructor followed by `FetchTransactions`.
- `console.error` logging is not modelled. A failure is otherwise only visible
  through the unchanged state.
- The error fields hold a `Message` value rather than the French string itself.
  `Validation.Text` gives the exact text and shows that only `NoError` is empty
  (falsy).
- Ids are integers, and `editingId` is null or a number: only null and 0 are
  falsy. String ids from the server are not modelled. In JavaScript every
  non-empty string id, "0" included, is truthy and would send an update; only
  "" and a missing id are falsy and would send a creation.
- JavaScript strings are UTF-16 code units, while a Dafny `char` is a Unicode
  scalar value. A character outside the Basic Multilingual Plane is outside the
  character class either way, so validation gives the same verdict.
- App.AppComponent.ChangeKind: requires the value to be "REVENUE" or "DEPENSE",
  because those are the only options the selector offers. Rows copied in by
  `EditTransaction` may still carry any type.

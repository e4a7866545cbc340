/** Sequences of user actions on the component, each followed to its end state
    using only the handlers' contracts. */
module Scenarios {
  import opened Transactions
  import opened Validation
  import opened App

  /** Typing a salary of 50000 dated 2024-01-05 and saving it: the creation is
      sent with exactly those fields, the form empties, and once the refresh
      brings back the list with the new row appended the balance has grown by
      50000. */
  method AddSalary(app: AppComponent, newId: int) returns (sent: Option<Request>)
    requires app.Valid() && !IsTruthy(app.editingId)
    modifies app
    ensures app.Valid()
    ensures sent == Some(Post(Draft("Salaire", REVENUE, 50000, "2024-01-05")))
    ensures app.CurrentDraft() == EMPTY_DRAFT && app.editingId == None
    ensures app.transactions == old(app.transactions) + [Transaction(newId, "Salaire", REVENUE, 50000, "2024-01-05")]
    ensures app.totalBalance == old(app.totalBalance) + 50000
  {
    var before := app.transactions;
    AcceptedDescriptions();
    app.ChangeDescription("Salaire");
    app.ChangeKind(REVENUE);
    app.ChangeAmount(50000);
    app.ChangeDate("2024-01-05");
    var refresh;
    sent, refresh := app.SaveTransaction(Succeeded);
    var row := Transaction(newId, "Salaire", REVENUE, 50000, "2024-01-05");
    BalanceAppend(before, row);
    app.FetchTransactions(Some(before + [row]));
  }

  /** Saving the description "123": nothing is sent whatever the server would
      have said, the description error says letters only, and the form keeps
      what was typed. */
  method SaveDigits(app: AppComponent, outcome: Outcome) returns (sent: Option<Request>)
    requires app.Valid()
    modifies app
    ensures app.Valid()
    ensures sent == None
    ensures app.descriptionError == NotOnlyLetters
    ensures app.description == "123"
    ensures app.transactions == old(app.transactions) && app.totalBalance == old(app.totalBalance)
  {
    RejectedDescriptions();
    app.ChangeDescription("123");
    var refresh;
    sent, refresh := app.SaveTransaction(outcome);
  }

  /** Choosing "edit" on a row and saving without touching the form sends the
      row back with its own description, type and amount and with its date
      shown as a calendar date; as an update of the row when its id is truthy,
      as a new creation when the id is 0. */
  method EditAndResave(app: AppComponent, row: Transaction, isoDate: string) returns (sent: Option<Request>)
    requires app.Valid()
    requires DescriptionError(row.description) == NoError && row.date != "" && isoDate != ""
    modifies app
    ensures app.Valid()
    ensures var body := Draft(row.description, row.kind, row.amount, isoDate);
      sent == Some(if row.id != 0 then Put(row.id, body) else Post(body))
    ensures app.CurrentDraft() == EMPTY_DRAFT && app.editingId == None
  {
    app.EditTransaction(row, isoDate);
    var refresh;
    sent, refresh := app.SaveTransaction(Succeeded);
  }

  /** Deleting an id that no row shown carries: the DELETE still goes out for
      that id, the server refuses it, no refresh is asked for, the list and the
      balance stay, and the loading flag is down. */
  method DeleteUnknown(app: AppComponent, id: int) returns (sent: Request, refresh: bool)
    requires app.Valid()
    requires forall i :: 0 <= i < |app.transactions| ==> app.transactions[i].id != id
    modifies app
    ensures app.Valid() && !app.loading
    ensures sent == Delete(id)
    ensures forall i :: 0 <= i < |app.transactions| ==> app.transactions[i].id != sent.id
    ensures !refresh
    ensures app.transactions == old(app.transactions) && app.totalBalance == old(app.totalBalance)
  {
    sent, refresh := app.DeleteTransaction(id, Failed);
  }
}

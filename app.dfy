/** The `App` component: its state hooks and the handlers that change them.
    Every network call is replaced by the outcome the server gave, passed in as
    a parameter; each handler runs to completion as one step. */
module App {
  import opened Transactions
  import opened Validation

  /** The request body built from the form fields: `{ description, type, amount, date }`. */
  datatype Draft = Draft(description: string, kind: string, amount: int, date: string)

  /** The form as it is at load time and after a successful save. */
  const EMPTY_DRAFT: Draft := Draft("", REVENUE, 0, "")

  /** How the server answered a request. */
  datatype Outcome = Succeeded | Failed

  /** The requests the handlers send: `POST /transactions`, `PUT /transactions/{id}`
      and `DELETE /transactions/{id}`. */
  datatype Request = Post(body: Draft) | Put(id: int, body: Draft) | Delete(id: int)

  /** JavaScript truthiness of `editingId`: null and the id 0 are both falsy. */
  predicate IsTruthy(editingId: Option<int>) {
    editingId.Some? && editingId.value != 0
  }

  class AppComponent {
    var transactions: seq<Transaction>
    var description: string
    var kind: string
    var amount: int
    var date: string
    var totalBalance: int
    var editingId: Option<int>
    var descriptionError: Message
    var dateError: Message
    var loading: bool

    /** What holds between two handlers: the balance shown is the balance of the
        list shown, no request is in flight, and each error field holds either
        nothing or one of its validator's messages. */
    ghost predicate Valid()
      reads this
    {
      && totalBalance == Balance(transactions)
      && !loading
      && !descriptionError.DateMissing?
      && (dateError.NoError? || dateError.DateMissing?)
    }

    /** The draft the form fields currently make up. */
    function CurrentDraft(): Draft
      reads this
    {
      Draft(description, kind, amount, date)
    }

    /** The initial value of every state hook. */
    constructor ()
      ensures Valid()
      ensures transactions == [] && totalBalance == 0
      ensures CurrentDraft() == EMPTY_DRAFT && editingId == None
      ensures descriptionError == NoError && dateError == NoError && !loading
    {
      transactions := [];
      description, kind, amount, date := "", REVENUE, 0, "";
      totalBalance := 0;
      editingId := None;
      descriptionError, dateError := NoError, NoError;
      loading := false;
    }

    /** `calculateBalance`: the forEach loop that adds each revenue and subtracts
        every other entry, then stores the result. */
    method CalculateBalance(list: seq<Transaction>)
      modifies this`totalBalance
      ensures totalBalance == Balance(list)
      ensures totalBalance == Total(RevenueAmounts(list)) - Total(OtherAmounts(list))
      ensures list == [] ==> totalBalance == 0
    {
      var balance := 0;
      for i := 0 to |list|
        invariant balance == Balance(list[..i])
      {
        assert list[..i + 1] == list[..i] + [list[i]];
        BalanceAppend(list[..i], list[i]);
        if list[i].kind == REVENUE {
          balance := balance + list[i].amount;
        } else {
          balance := balance - list[i].amount;
        }
      }
      assert list[..|list|] == list;
      BalanceIsRevenueMinusOthers(list);
      totalBalance := balance;
    }

    /** `fetchTransactions`: `response` is the list the GET returned, or None when
        the request failed. On success the list is replaced and the balance
        recomputed from it; on failure both stay as they were. The loading flag
        is raised for the request and lowered in `finally` on both paths. */
    method FetchTransactions(response: Option<seq<Transaction>>)
      requires Valid()
      modifies this
      ensures Valid()
      ensures response.Some? ==> transactions == response.value && totalBalance == Balance(response.value)
      ensures response.None? ==> transactions == old(transactions) && totalBalance == old(totalBalance)
      ensures CurrentDraft() == old(CurrentDraft()) && editingId == old(editingId)
      ensures descriptionError == old(descriptionError) && dateError == old(dateError)
      ensures !loading
    {
      loading := true;
      if response.Some? {
        transactions := response.value;
        CalculateBalance(response.value);
      }
      loading := false;
    }

    /** `validateDescription`: accepts exactly the non-blank values made of
        letters of the class and white space, and records why it rejects. */
    method ValidateDescription(value: string) returns (ok: bool)
      modifies this`descriptionError
      ensures descriptionError == DescriptionError(value)
      ensures ok <==> descriptionError == NoError
    {
      if Trim(value) == "" {
        descriptionError := DescriptionMissing;
        return false;
      }
      if !MatchesLetterPattern(value) {
        descriptionError := NotOnlyLetters;
        return false;
      }
      descriptionError := NoError;
      return true;
    }

    /** `validateDate`: rejects exactly the empty value. */
    method ValidateDate(value: string) returns (ok: bool)
      modifies this`dateError
      ensures dateError == DateError(value)
      ensures ok <==> dateError == NoError
    {
      if value == "" {
        dateError := DateMissing;
        return false;
      }
      dateError := NoError;
      return true;
    }

    /** The description input's change handler: store the value, then validate it. */
    method ChangeDescription(value: string)
      requires Valid()
      modifies this`description, this`descriptionError
      ensures Valid()
      ensures description == value && descriptionError == DescriptionError(value)
    {
      description := value;
      var _ := ValidateDescription(value);
    }

    /** The date input's change handler: store the value, then validate it. */
    method ChangeDate(value: string)
      requires Valid()
      modifies this`date, this`dateError
      ensures Valid()
      ensures date == value && dateError == DateError(value)
    {
      date := value;
      var _ := ValidateDate(value);
    }

    /** The type selector's change handler; the selector offers "REVENUE" and "DEPENSE". */
    method ChangeKind(value: string)
      requires Valid()
      requires value == REVENUE || value == DEPENSE
      modifies this`kind
      ensures Valid()
      ensures kind == value
    {
      kind := value;
    }

    /** The amount input's change handler, with the parsed number as an integer. */
    method ChangeAmount(value: int)
      requires Valid()
      modifies this`amount
      ensures Valid()
      ensures amount == value
    {
      amount := value;
    }

    /** `saveTransaction`. Both validators always run, so both error fields are
        brought up to date. If either rejects, nothing is sent and nothing else
        changes; otherwise the draft goes to the server as `Submit` describes. */
    method SaveTransaction(outcome: Outcome) returns (sent: Option<Request>, refresh: bool)
      requires Valid()
      modifies this
      ensures Valid()
      ensures descriptionError == DescriptionError(old(description))
      ensures dateError == DateError(old(date))
      ensures descriptionError != NoError || dateError != NoError ==> sent == None && !refresh
      ensures descriptionError == NoError && dateError == NoError ==>
        sent == Some(if IsTruthy(old(editingId)) then Put(old(editingId).value, old(CurrentDraft()))
                     else Post(old(CurrentDraft())))
      ensures refresh <==> descriptionError == NoError && dateError == NoError && outcome == Succeeded
      ensures refresh ==> CurrentDraft() == EMPTY_DRAFT && editingId == None
      ensures !refresh ==> CurrentDraft() == old(CurrentDraft()) && editingId == old(editingId)
      ensures transactions == old(transactions) && totalBalance == old(totalBalance)
      ensures !loading
    {
      var isDescriptionValid := ValidateDescription(description);
      var isDateValid := ValidateDate(date);
      if !isDescriptionValid || !isDateValid {
        return None, false;
      }
      var request;
      request, refresh := Submit(outcome);
      sent := Some(request);
    }

    /** The `try`/`finally` block of `saveTransaction`, reached once both fields
        are valid. The draft is sent as an update of `editingId` when that is
        truthy and as a creation when it is not (an id of 0 creates); `outcome`
        is the server's answer. On success the form returns to create mode with an
        empty draft and no error, and `refresh` asks for the list to be fetched
        again; on failure the draft, the mode and the errors are kept for a retry.
        The loading flag is lowered on both paths. */
    method Submit(outcome: Outcome) returns (sent: Request, refresh: bool)
      requires Valid()
      modifies this
      ensures Valid()
      ensures sent == if IsTruthy(old(editingId)) then Put(old(editingId).value, old(CurrentDraft()))
                      else Post(old(CurrentDraft()))
      ensures refresh <==> outcome == Succeeded
      ensures refresh ==> CurrentDraft() == EMPTY_DRAFT && editingId == None
      ensures refresh ==> descriptionError == NoError && dateError == NoError
      ensures !refresh ==> CurrentDraft() == old(CurrentDraft()) && editingId == old(editingId)
      ensures !refresh ==> descriptionError == old(descriptionError) && dateError == old(dateError)
      ensures transactions == old(transactions) && totalBalance == old(totalBalance)
      ensures !loading
    {
      loading := true;
      var body := CurrentDraft();
      if IsTruthy(editingId) {
        sent := Put(editingId.value, body);
      } else {
        sent := Post(body);
      }
      if outcome == Succeeded {
        editingId := None;
        refresh := true;
        description, kind, amount, date := "", REVENUE, 0, "";
        descriptionError, dateError := NoError, NoError;
      } else {
        refresh := false;
      }
      loading := false;
    }

    /** `editTransaction`: switch to edit mode on `row`. The draft takes the row's
        description, type and amount; `isoDate` is the calendar-date part of the
        row's date, which the component shows in place of an empty date only. Both
        error fields are cleared; the list, the balance and the loading flag stay. */
    method EditTransaction(row: Transaction, isoDate: string)
      requires Valid()
      modifies this
      ensures Valid()
      ensures editingId == Some(row.id)
      ensures CurrentDraft() == Draft(row.description, row.kind, row.amount, if row.date == "" then "" else isoDate)
      ensures descriptionError == NoError && dateError == NoError
      ensures transactions == old(transactions) && totalBalance == old(totalBalance) && loading == old(loading)
    {
      editingId := Some(row.id);
      description := row.description;
      kind := row.kind;
      amount := row.amount;
      date := if row.date == "" then "" else isoDate;
      descriptionError, dateError := NoError, NoError;
    }

    /** `deleteTransaction`: the DELETE of `id` is always sent; `outcome` is the
        server's answer. Only a success asks for the list to be fetched again;
        the list shown, the balance and the form are untouched either way. */
    method DeleteTransaction(id: int, outcome: Outcome) returns (sent: Request, refresh: bool)
      requires Valid()
      modifies this
      ensures Valid()
      ensures sent == Delete(id)
      ensures refresh <==> outcome == Succeeded
      ensures transactions == old(transactions) && totalBalance == old(totalBalance)
      ensures CurrentDraft() == old(CurrentDraft()) && editingId == old(editingId)
      ensures descriptionError == old(descriptionError) && dateError == old(dateError)
      ensures !loading
    {
      loading := true;
      sent := Delete(id);
      refresh := outcome == Succeeded;
      loading := false;
    }
  }
}

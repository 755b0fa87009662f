/** The stateful part of src/pages/Dashboard.jsx: the expense list and the
    flags the action handlers set around each request, the keyboard
    shortcut, the persisted category filter, logout, the budget modal, the
    analyzer and the export. Every server reply is a parameter
    (`Outcome`), `window.confirm` is the `confirmed` parameter, and each
    toast call is recorded in `notices`, in order. The derived values
    (totals, remaining, percentage, filter) are the functions of the
    Aggregates module applied to `expenses` and `LimitOf(user)`. */
module Expenses {
  import opened Wrappers
  import opened Seqs
  import opened Session
  import opened Validation
  import opened Aggregates
  import opened Toast
  import opened ExportFilename

  /** The expense list with every expense whose id is `id` removed, the rest kept
      in order. */
  function WithoutExpense(es: seq<Expense>, id: string): seq<Expense>
  {
    Keep(es, (e: Expense) => e.id != id)
  }

  /** Deleting an id removes every expense with that id, duplicates
      included, keeps every other one as often as it occurred and in the
      same order, and changes nothing when no expense has that id. */
  lemma {:induction false} DeleteSpec(es: seq<Expense>, id: string)
    ensures forall e :: e in WithoutExpense(es, id) ==> e.id != id
    ensures forall e :: (multiset(WithoutExpense(es, id))[e] == if e.id == id then 0 else multiset(es)[e])
    ensures IsSubseq(WithoutExpense(es, id), es)
    ensures (forall i :: 0 <= i < |es| ==> es[i].id != id) ==> WithoutExpense(es, id) == es
  {
    KeepIsSubseq(es, (e: Expense) => e.id != id);
    forall e ensures multiset(WithoutExpense(es, id))[e] == if e.id == id then 0 else multiset(es)[e] {
      KeepCount(es, (e: Expense) => e.id != id, e);
    }
    if forall i :: 0 <= i < |es| ==> es[i].id != id {
      KeepAll(es, (e: Expense) => e.id != id);
    }
  }

  /** Deleting an id lowers the total spent by exactly the amounts of the
      expenses that carry it. */
  lemma {:induction false} DeleteLowersTotal(es: seq<Expense>, id: string)
    ensures TotalSpent(WithoutExpense(es, id)) == TotalSpent(es) - TotalSpent(Keep(es, (e: Expense) => e.id == id))
  {
    if es != [] {
      DeleteLowersTotal(es[1..], id);
      assert es == [es[0]] + es[1..];
      TotalSpentCons(es[0], es[1..]);
      if es[0].id == id {
        TotalSpentCons(es[0], Keep(es[1..], (e: Expense) => e.id == id));
      } else {
        TotalSpentCons(es[0], WithoutExpense(es[1..], id));
      }
    }
  }

  /** The budget modal's check: `!(!newBudget || isNaN(newBudget) || Number(newBudget) <= 0)`. */
  predicate ValidBudget(input: string, toNumber: string -> Option<int>)
  {
    input != "" && IsPositive(toNumber, input)
  }

  /** `JSON.parse(localStorage.getItem("et_user"))`, an absent or non-JSON
      entry spreading as the empty object. */
  function StoredProfile(entries: map<string, Stored>): Profile
  {
    if UserKey in entries && entries[UserKey].Json? then entries[UserKey].profile else map[]
  }

  /** `String(n)` for an integer. */
  function Decimal(n: int): string
    decreases if n < 0 then 1 - n else n
  {
    if n < 0 then "-" + Decimal(-n)
    else if n < 10 then [(48 + n) as char]
    else Decimal(n / 10) + [(48 + n % 10) as char]
  }

  /** The writes the dashboard and the sign-in pages make keep the
      credential and the profile stored together: sign-in and sign-up
      write both, logout removes both, the budget update writes the profile
      only while a credential is stored, and the filter has its own key. */
  lemma {:induction false} SessionStaysPaired(entries: map<string, Stored>, token: string, user: Profile, p: Profile, filter: string)
    requires Paired(entries)
    ensures Paired(StoreSession(entries, token, user))
    ensures Paired(ClearSession(entries))
    ensures TokenKey in entries ==> Paired(entries[UserKey := Json(p)])
    ensures Paired(entries[FilterKey := Str(filter)])
  {
  }

  class Dashboard {
    /** The signed-in user's profile; empty until read from storage. */
    var user: Profile
    var expenses: seq<Expense>
    var loading: bool
    var showAddForm: bool
    /** The alert above the statistics. */
    var error: string
    var categoryFilter: string
    var showBudgetModal: bool
    var budgetLoading: bool
    var deleteAllLoading: bool
    /** The budget modal's own `newBudget` and `error`. */
    var budgetInput: string
    var budgetError: string
    /** The toast calls made so far, oldest first. */
    var notices: seq<Notice>

    constructor ()
      ensures user == map[] && expenses == [] && loading && !showAddForm && error == ""
      ensures categoryFilter == "all" && !showBudgetModal && !budgetLoading && !deleteAllLoading
      ensures budgetInput == "" && budgetError == "" && notices == []
    {
      user, expenses, loading, showAddForm, error := map[], [], true, false, "";
      categoryFilter, showBudgetModal, budgetLoading, deleteAllLoading := "all", false, false, false;
      budgetInput, budgetError, notices := "", "", [];
    }

    /** The mount effect: without a credential it leaves for the sign-in
        page; otherwise it reads the stored profile when there is one. (It
        then fetches the expenses; see `FetchExpenses`.) */
    method Mount(storage: LocalStorage) returns (navigated: Option<string>)
      modifies this`user
      ensures !IsAuthed(storage.entries) ==> navigated == Some("/auth/signin") && user == old(user)
      ensures IsAuthed(storage.entries) ==> navigated == None
      ensures IsAuthed(storage.entries) && UserKey in storage.entries && storage.entries[UserKey].Json? ==>
        user == storage.entries[UserKey].profile
      ensures IsAuthed(storage.entries) && !(UserKey in storage.entries && storage.entries[UserKey].Json?) ==>
        user == old(user)
    {
      if !IsAuthed(storage.entries) {
        return Some("/auth/signin");
      }
      navigated := None;
      if UserKey in storage.entries && storage.entries[UserKey].Json? {
        user := storage.entries[UserKey].profile;
      }
    }

    /** The filter effect on mount: a non-empty saved filter is restored. */
    method LoadFilter(storage: LocalStorage)
      modifies this`categoryFilter
      ensures FilterKey in storage.entries && storage.entries[FilterKey].Str? && storage.entries[FilterKey].s != "" ==>
        categoryFilter == storage.entries[FilterKey].s
      ensures !(FilterKey in storage.entries && storage.entries[FilterKey].Str? && storage.entries[FilterKey].s != "") ==>
        categoryFilter == old(categoryFilter)
    {
      if FilterKey in storage.entries && storage.entries[FilterKey].Str? && storage.entries[FilterKey].s != "" {
        categoryFilter := storage.entries[FilterKey].s;
      }
    }

    /** Choosing a category: the filter changes and the effect saves it. */
    method ChooseFilter(storage: LocalStorage, c: string)
      modifies this`categoryFilter, storage
      ensures categoryFilter == c
      ensures storage.entries == old(storage.entries)[FilterKey := Str(c)]
    {
      categoryFilter := c;
      storage.SetItem(FilterKey, Str(c));
    }

    /** `fetchExpenses`: the list becomes the reply on success; on failure it
        is kept and the error is recorded. Loading ends either way. */
    method FetchExpenses(reply: Outcome<seq<Expense>>)
      modifies this`expenses, this`loading, this`error, this`notices
      ensures !loading
      ensures reply.Ok? ==> expenses == reply.value && error == old(error) && notices == old(notices)
      ensures !reply.Ok? ==> expenses == old(expenses) && notices == old(notices) + [Notice("error", "Failed to load expenses")]
      ensures reply.Refused? ==> error == "Failed to fetch expenses"
      ensures reply.Failed? ==> error == reply.message
    {
      loading := true;
      match reply {
        case Ok(data) =>
          expenses := data;
        case Refused(_) =>
          error := "Failed to fetch expenses";
          notices := notices + [Notice("error", "Failed to load expenses")];
        case Failed(m) =>
          error := m;
          notices := notices + [Notice("error", "Failed to load expenses")];
      }
      loading := false;
    }

    /** `onExpenseAdded`: the new expense comes first, the old list follows
        unchanged, and the form closes. */
    method OnExpenseAdded(e: Expense)
      modifies this`expenses, this`showAddForm, this`notices
      ensures expenses == [e] + old(expenses)
      ensures expenses[0] == e && expenses[1..] == old(expenses)
      ensures TotalSpent(expenses) == TotalSpent(old(expenses)) + e.amount
      ensures !showAddForm
      ensures notices == old(notices) + [Notice("success", "Expense added successfully!")]
    {
      TotalSpentCons(e, expenses);
      expenses := [e] + expenses;
      showAddForm := false;
      notices := notices + [Notice("success", "Expense added successfully!")];
    }

    /** `handleDeleteExpense(id)`. */
    method DeleteExpense(id: string, confirmed: bool, reply: Outcome<()>)
      modifies this`expenses, this`error, this`notices
      ensures !confirmed ==> expenses == old(expenses) && error == old(error) && notices == old(notices)
      ensures confirmed && reply.Ok? ==>
        && expenses == WithoutExpense(old(expenses), id)
        && error == old(error)
        && notices == old(notices) + [Notice("success", "Expense deleted")]
      ensures confirmed && !reply.Ok? ==>
        expenses == old(expenses) && notices == old(notices) + [Notice("error", "Failed to delete expense")]
      ensures confirmed && reply.Refused? ==> error == "Delete failed"
      ensures confirmed && reply.Failed? ==> error == reply.message
    {
      if !confirmed {
        return;
      }
      match reply {
        case Ok(_) =>
          expenses := WithoutExpense(expenses, id);
          notices := notices + [Notice("success", "Expense deleted")];
        case Refused(_) =>
          error := "Delete failed";
          notices := notices + [Notice("error", "Failed to delete expense")];
        case Failed(m) =>
          error := m;
          notices := notices + [Notice("error", "Failed to delete expense")];
      }
    }

    /** `handleDeleteAllExpenses`. The reply carries the server's message. */
    method DeleteAllExpenses(confirmed: bool, reply: Outcome<string>)
      modifies this`expenses, this`deleteAllLoading, this`notices
      ensures !confirmed ==>
        expenses == old(expenses) && deleteAllLoading == old(deleteAllLoading) && notices == old(notices)
      ensures confirmed ==> !deleteAllLoading
      ensures confirmed && reply.Ok? ==>
        expenses == [] && notices == old(notices) + [Notice("success", Or(reply.value, "All expenses deleted"))]
      ensures confirmed && reply.Refused? ==>
        expenses == old(expenses) && notices == old(notices) + [Notice("error", "Delete all failed")]
      ensures confirmed && reply.Failed? ==>
        expenses == old(expenses) && notices == old(notices) + [Notice("error", Or(reply.message, "Failed to delete all expenses"))]
    {
      if !confirmed {
        return;
      }
      deleteAllLoading := true;
      match reply {
        case Ok(message) =>
          expenses := [];
          notices := notices + [Notice("success", Or(message, "All expenses deleted"))];
        case Refused(_) =>
          notices := notices + [Notice("error", "Delete all failed")];
        case Failed(m) =>
          notices := notices + [Notice("error", Or(m, "Failed to delete all expenses"))];
      }
      deleteAllLoading := false;
    }

    /** The keyboard shortcut: `/` opens the add form, and the browser's
        default is suppressed, only when it is closed; Escape closes it. */
    method KeyDown(key: string) returns (prevented: bool)
      modifies this`showAddForm
      ensures prevented <==> key == "/" && !old(showAddForm)
      ensures key == "/" ==> showAddForm
      ensures key == "Escape" ==> !showAddForm
      ensures key != "/" && key != "Escape" ==> showAddForm == old(showAddForm)
    {
      prevented := false;
      var open := showAddForm;
      if key == "/" && !open {
        prevented := true;
        showAddForm := true;
      }
      if key == "Escape" && open {
        showAddForm := false;
      }
    }

    /** `handleLogout`. */
    method Logout(storage: LocalStorage) returns (navigated: string)
      modifies storage, this`notices
      ensures storage.entries == ClearSession(old(storage.entries))
      ensures navigated == "/"
      ensures notices == old(notices) + [Notice("success", "Logged out successfully")]
    {
      storage.RemoveItem(TokenKey);
      storage.RemoveItem(UserKey);
      notices := notices + [Notice("success", "Logged out successfully")];
      navigated := "/";
    }

    /** "Update Budget": the modal mounts with the current limit (0 when
        none) as its text and no error. */
    method OpenBudgetModal()
      modifies this`showBudgetModal, this`budgetInput, this`budgetError
      ensures showBudgetModal && budgetError == ""
      ensures budgetInput == Decimal(if LimitOf(user).Some? then LimitOf(user).value else 0)
    {
      showBudgetModal := true;
      budgetInput := Decimal(if LimitOf(user).Some? then LimitOf(user).value else 0);
      budgetError := "";
    }

    /** Typing in the budget field clears the modal's error. */
    method EditBudget(value: string)
      modifies this`budgetInput, this`budgetError
      ensures budgetInput == value && budgetError == ""
    {
      budgetInput := value;
      budgetError := "";
    }

    /** "Cancel". */
    method CloseBudgetModal()
      modifies this`showBudgetModal
      ensures !showBudgetModal
    {
      showBudgetModal := false;
    }

    /** `UpdateBudgetModal.handleSubmit`. Returns the `newLimit` sent, or
        None when the local check stopped the request. */
    method SubmitBudget(storage: LocalStorage, toNumber: string -> Option<int>, reply: Outcome<()>)
      returns (request: Option<int>)
      modifies storage, this`user, this`showBudgetModal, this`budgetLoading, this`budgetError, this`notices
      ensures !ValidBudget(budgetInput, toNumber) ==>
        && request == None
        && budgetError == "Please enter a valid budget amount"
        && user == old(user) && storage.entries == old(storage.entries)
        && showBudgetModal == old(showBudgetModal) && budgetLoading == old(budgetLoading)
        && notices == old(notices)
      ensures ValidBudget(budgetInput, toNumber) ==>
        request == toNumber(budgetInput) && request.value > 0 && !budgetLoading
      ensures ValidBudget(budgetInput, toNumber) && reply.Ok? ==>
        && user == old(user)["budgetLimit" := Num(request.value)]
        && LimitOf(user) == request
        && storage.entries == old(storage.entries)[UserKey := Json(StoredProfile(old(storage.entries))["budgetLimit" := Num(request.value)])]
        && !showBudgetModal && budgetError == ""
        && notices == old(notices) + [Notice("success", "Budget limit updated!")]
      ensures ValidBudget(budgetInput, toNumber) && !reply.Ok? ==>
        && user == old(user) && storage.entries == old(storage.entries)
        && showBudgetModal == old(showBudgetModal)
        && notices == old(notices) + [Notice("error", budgetError)]
      ensures ValidBudget(budgetInput, toNumber) && reply.Refused? ==> budgetError == Or(reply.message, "Failed to update budget")
      ensures ValidBudget(budgetInput, toNumber) && reply.Failed? ==> budgetError == reply.message
    {
      budgetError := "";
      if !ValidBudget(budgetInput, toNumber) {
        budgetError := "Please enter a valid budget amount";
        return None;
      }
      var n := toNumber(budgetInput).value;
      request := Some(n);
      budgetLoading := true;
      match reply {
        case Ok(_) =>
          notices := notices + [Notice("success", "Budget limit updated!")];
          storage.SetItem(UserKey, Json(StoredProfile(storage.entries)["budgetLimit" := Num(n)]));
          user := user["budgetLimit" := Num(n)];
          showBudgetModal := false;
        case Refused(m) =>
          budgetError := Or(m, "Failed to update budget");
          notices := notices + [Notice("error", budgetError)];
        case Failed(m) =>
          budgetError := m;
          notices := notices + [Notice("error", budgetError)];
      }
      budgetLoading := false;
    }

    /** `handleExportPDF`: downloads under the resolved name and toasts the
        outcome. */
    method Export(reply: Outcome<string>, decode: string -> Option<string>, decodeError: string, today: string)
      returns (download: Option<string>)
      modifies this`notices
      ensures download == ExportPdf(reply, decode, decodeError, today).download
      ensures notices == old(notices) + [ExportPdf(reply, decode, decodeError, today).notice]
    {
      var x := ExportPdf(reply, decode, decodeError, today);
      download := x.download;
      notices := notices + [x.notice];
    }
  }

  /** A successful budget update changes the profile's `budgetLimit` only,
      both in the page state and in the stored profile. */
  lemma OnlyBudgetLimitChanges(user: Profile, entries: map<string, Stored>, n: int)
    ensures var u := user["budgetLimit" := Num(n)];
      forall k :: k != "budgetLimit" ==> (k in u <==> k in user) && (k in u ==> u[k] == user[k])
    ensures var p := StoredProfile(entries[UserKey := Json(StoredProfile(entries)["budgetLimit" := Num(n)])]);
      && LimitOf(p) == Some(n)
      && forall k :: k != "budgetLimit" ==> (k in p <==> k in StoredProfile(entries)) && (k in p ==> p[k] == StoredProfile(entries)[k])
  {
  }

  /** The AI analyzer panel. */
  class Analyzer {
    var query: string
    var analysis: string
    var loading: bool
    var error: string
    /** The toast calls it made, oldest first. */
    var notices: seq<Notice>

    constructor ()
      ensures query == "" && analysis == "" && !loading && error == "" && notices == []
    {
      query, analysis, loading, error, notices := "", "", false, "", [];
    }

    /** `handleAnalyze`. Returns the query sent, or None when it was empty. */
    method Analyze(reply: Outcome<string>) returns (request: Option<string>)
      modifies this`analysis, this`loading, this`error, this`notices
      ensures query == "" ==>
        && request == None && error == "Please enter a question"
        && analysis == old(analysis) && loading == old(loading) && notices == old(notices)
      ensures query != "" ==> request == Some(query) && !loading
      ensures query != "" && reply.Ok? ==>
        && analysis == Or(reply.value, "No analysis available") && error == ""
        && notices == old(notices) + [Notice("success", "Analysis complete!")]
      ensures query != "" && !reply.Ok? ==>
        analysis == old(analysis) && notices == old(notices) + [Notice("error", error)]
      ensures query != "" && reply.Refused? ==> error == Or(reply.message, "Analysis failed")
      ensures query != "" && reply.Failed? ==> error == reply.message
    {
      error := "";
      if query == "" {
        error := "Please enter a question";
        return None;
      }
      request := Some(query);
      loading := true;
      match reply {
        case Ok(message) =>
          analysis := Or(message, "No analysis available");
          notices := notices + [Notice("success", "Analysis complete!")];
        case Refused(m) =>
          error := Or(m, "Analysis failed");
          notices := notices + [Notice("error", error)];
        case Failed(m) =>
          error := m;
          notices := notices + [Notice("error", error)];
      }
      loading := false;
    }
  }
}

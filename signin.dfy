/** The sign-in and sign-up pages of src/pages/Signin.jsx: the validation
    gate, the field-error map, the request payload, the paired session write
    and the per-field error clearing on edit. The server's reply is a
    parameter; navigation is returned as the path navigated to. */
module Signin {
  import opened Wrappers
  import opened Validation
  import opened Session

  /** The message of the last issue about `field`, if any. */
  function LastMessage(issues: seq<Issue>, field: string): Option<string>
  {
    if issues == [] then None
    else if issues[|issues| - 1].field == field then Some(issues[|issues| - 1].message)
    else LastMessage(issues[..|issues| - 1], field)
  }

  /** A field has no entry exactly when no issue is about it. */
  lemma {:induction false} LastMessageAbsent(issues: seq<Issue>, field: string)
    ensures LastMessage(issues, field).None? <==> forall i :: 0 <= i < |issues| ==> issues[i].field != field
    decreases |issues|
  {
    if issues != [] {
      var n := |issues|;
      var init := issues[..n - 1];
      LastMessageAbsent(init, field);
      assert forall i :: 0 <= i < n - 1 ==> issues[i] == init[i];
    }
  }

  /** The position of the issue whose message a field shows: the last one
      about that field. */
  lemma {:induction false} LastMessageWitness(issues: seq<Issue>, field: string) returns (i: nat)
    requires LastMessage(issues, field).Some?
    ensures i < |issues| && issues[i] == Issue(field, LastMessage(issues, field).value)
    ensures forall j :: i < j < |issues| ==> issues[j].field != field
    decreases |issues|
  {
    var n := |issues|;
    if issues[n - 1].field == field {
      i := n - 1;
    } else {
      var init := issues[..n - 1];
      i := LastMessageWitness(init, field);
      assert issues[i] == init[i];
      forall j | i < j < n
        ensures issues[j].field != field
      {
        if j < n - 1 {
          assert issues[j] == init[j];
        }
      }
    }
  }

  /** A field has an entry exactly when some issue is about it, and the
      entry is the message of the last such issue. */
  lemma LastMessageFound(issues: seq<Issue>, field: string)
    ensures LastMessage(issues, field).Some? <==> exists i :: 0 <= i < |issues| && issues[i].field == field
    ensures LastMessage(issues, field).Some? ==>
      exists i :: 0 <= i < |issues| && issues[i] == Issue(field, LastMessage(issues, field).value)
        && forall j :: i < j < |issues| ==> issues[j].field != field
  {
    LastMessageAbsent(issues, field);
    if LastMessage(issues, field).Some? {
      var i := LastMessageWitness(issues, field);
    }
  }

  /** A check on another field, reported after the rest, leaves a field's
      message alone. */
  lemma CheckSkips(pre: seq<Issue>, ok: bool, other: string, message: string, field: string)
    requires other != field
    ensures LastMessage(pre + Check(ok, other, message), field) == LastMessage(pre, field)
  {
    if ok {
      assert pre + Check(ok, other, message) == pre;
    } else {
      assert (pre + Check(ok, other, message))[..|pre|] == pre;
    }
  }

  /** The frequency check reports on its own field, never on the title. */
  lemma FrequencySkipsTitle(pre: seq<Issue>, freq: Option<string>)
    ensures LastMessage(pre + FrequencyIssues(freq), "title") == LastMessage(pre, "title")
  {
    var r := FrequencyIssues(freq);
    if r == [] {
      assert pre + r == pre;
    } else {
      assert r[0].field == "recurringFrequency";
      assert (pre + r)[..|pre|] == pre;
    }
  }

  /** `m` is the field-error object built by writing each issue's message under
      its field, in order, into an empty object: one key per field that has an issue, holding
      the message of that field's last issue. */
  ghost predicate IsFieldErrorMap(m: map<string, string>, issues: seq<Issue>)
  {
    forall k :: (k in m <==> LastMessage(issues, k).Some?) && (k in m ==> LastMessage(issues, k) == Some(m[k]))
  }

  /** The `forEach` loop that turns the issues into the field-error object. */
  method CollectFieldErrors(issues: seq<Issue>) returns (m: map<string, string>)
    ensures forall k :: k in m <==> LastMessage(issues, k).Some?
    ensures forall k :: k in m ==> LastMessage(issues, k) == Some(m[k])
  {
    m := map[];
    var i := 0;
    while i < |issues|
      invariant 0 <= i <= |issues|
      invariant forall k :: k in m <==> LastMessage(issues[..i], k).Some?
      invariant forall k :: k in m ==> LastMessage(issues[..i], k) == Some(m[k])
    {
      assert issues[..i + 1][..i] == issues[..i];
      m := m[issues[i].field := issues[i].message];
      i := i + 1;
    }
    assert issues[..i] == issues;
  }

  /** Only the two title checks decide what the title field shows: every
      later check of the expense form is about another field. */
  lemma {:induction false} TitleMessageFromTitleChecks(f: ExpenseInput, toNumber: string -> Option<int>, notInFuture: string -> bool)
    ensures LastMessage(ExpenseIssues(f, toNumber, notInFuture), "title")
      == LastMessage(Check(|f.title| >= 1, "title", "Title is required")
                     + Check(|f.title| >= 3, "title", "Title must be at least 3 characters"), "title")
  {
    var t := Check(|f.title| >= 1, "title", "Title is required")
      + Check(|f.title| >= 3, "title", "Title must be at least 3 characters");
    var a1 := t + Check(|f.amount| >= 1, "amount", "Amount is required");
    var a2 := a1 + Check(IsPositive(toNumber, f.amount), "amount", "Amount must be greater than 0");
    var c := a2 + Check(|f.category| >= 1, "category", "Category is required");
    var d := c + Check(notInFuture(f.date), "date", "Date cannot be in the future");
    CheckSkips(t, |f.amount| >= 1, "amount", "Amount is required", "title");
    CheckSkips(a1, IsPositive(toNumber, f.amount), "amount", "Amount must be greater than 0", "title");
    CheckSkips(a2, |f.category| >= 1, "category", "Category is required", "title");
    CheckSkips(c, notInFuture(f.date), "date", "Date cannot be in the future", "title");
    FrequencySkipsTitle(d, f.recurringFrequency);
  }

  /** A later issue on a field overwrites an earlier one: an empty expense
      title reports two issues, and the field shows the second. */
  lemma {:induction false} EmptyTitleShowsLastIssue(f: ExpenseInput, toNumber: string -> Option<int>, notInFuture: string -> bool)
    requires f.title == ""
    ensures LastMessage(ExpenseIssues(f, toNumber, notInFuture), "title") == Some("Title must be at least 3 characters")
  {
    TitleMessageFromTitleChecks(f, toNumber, notInFuture);
    var t := Check(|f.title| >= 1, "title", "Title is required")
      + Check(|f.title| >= 3, "title", "Title must be at least 3 characters");
    assert t == [Issue("title", "Title is required"), Issue("title", "Title must be at least 3 characters")];
  }

  /** The reply of `/auth/login` and `/auth/signup`: `{ token, user }`. */
  datatype AuthReply = AuthReply(token: string, user: Profile)

  /** Writes `et_token` then `et_user`, as both pages do on success. */
  method SaveSession(storage: LocalStorage, reply: AuthReply)
    modifies storage
    ensures storage.entries == StoreSession(old(storage.entries), reply.token, reply.user)
  {
    storage.SetItem(TokenKey, Str(reply.token));
    storage.SetItem(UserKey, Json(reply.user));
  }

  datatype SigninField = SigninEmail | SigninPassword

  class SigninForm {
    var email: string
    var password: string
    var loading: bool
    /** The alert under the form. */
    var error: string
    /** The per-field messages. */
    var errors: map<string, string>

    constructor ()
      ensures email == "" && password == "" && !loading && error == "" && errors == map[]
    {
      email, password, loading, error, errors := "", "", false, "", map[];
    }

    /** Typing in a field: sets it and clears that field's message only. */
    method Edit(field: SigninField, value: string)
      modifies this
      ensures field == SigninEmail ==> email == value && password == old(password) && errors == old(errors)["email" := ""]
      ensures field == SigninPassword ==> password == value && email == old(email) && errors == old(errors)["password" := ""]
      ensures loading == old(loading) && error == old(error)
    {
      match field
      case SigninEmail =>
        email := value;
        errors := errors["email" := ""];
      case SigninPassword =>
        password := value;
        errors := errors["password" := ""];
    }

    /** `onSubmit`. Returns the request sent (None when validation stopped
        it) and the path navigated to. */
    method Submit(storage: LocalStorage, isEmail: string -> bool, reply: Outcome<AuthReply>)
      returns (request: Option<SigninInput>, navigated: Option<string>)
      modifies this, storage
      ensures email == old(email) && password == old(password) && !loading
      ensures var issues := SigninIssues(SigninInput(old(email), old(password)), isEmail);
        issues != [] ==>
          && request == None && navigated == None && error == ""
          && IsFieldErrorMap(errors, issues)
          && storage.entries == old(storage.entries)
      ensures var issues := SigninIssues(SigninInput(old(email), old(password)), isEmail);
        issues == [] ==>
          && request == Some(SigninInput(old(email), old(password)))
          && errors == map[]
          && (reply.Ok? ==> storage.entries == StoreSession(old(storage.entries), reply.value.token, reply.value.user)
                            && navigated == Some("/dashboard") && error == "")
          && (reply.Refused? ==> storage.entries == old(storage.entries) && navigated == None
                                 && error == Or(reply.message, "Login failed"))
          && (reply.Failed? ==> storage.entries == old(storage.entries) && navigated == None
                                && error == reply.message)
    {
      error := "";
      errors := map[];
      request, navigated := None, None;
      var issues := SigninIssues(SigninInput(email, password), isEmail);
      if issues != [] {
        errors := CollectFieldErrors(issues);
        loading := false;
        return;
      }
      loading := true;
      request := Some(SigninInput(email, password));
      match reply {
        case Ok(a) =>
          SaveSession(storage, a);
          navigated := Some("/dashboard");
        case Refused(m) =>
          error := Or(m, "Login failed");
        case Failed(m) =>
          error := m;
      }
      loading := false;
    }
  }

  /** The JSON body of `POST /auth/signup`. */
  datatype SignupPayload = SignupPayload(
    name: string,
    email: string,
    password: string,
    budgetLimit: Option<int>,
    phoneNumber: Option<string>)

  /** What `safeParse` is given: empty optional fields become undefined. */
  function SignupInputOf(name: string, email: string, password: string, budgetLimit: string, phoneNumber: string): SignupInput
  {
    SignupInput(name, email, password,
                if budgetLimit == "" then None else Some(budgetLimit),
                if phoneNumber == "" then None else Some(phoneNumber))
  }

  /** `{ ..., budgetLimit: budgetLimit ? Number(budgetLimit) : undefined, phoneNumber: phoneNumber || undefined }`.
      `Number` of a non-number is NaN, which `JSON.stringify` writes as
      null; both are None here. */
  function PayloadOf(name: string, email: string, password: string, budgetLimit: string, phoneNumber: string,
                     toNumber: string -> Option<int>): (p: SignupPayload)
    ensures p.budgetLimit.Some? ==> budgetLimit != "" && toNumber(budgetLimit) == p.budgetLimit
    ensures budgetLimit == "" ==> p.budgetLimit == None
    ensures budgetLimit != "" ==> p.budgetLimit == toNumber(budgetLimit)
    ensures p.phoneNumber == None <==> phoneNumber == ""
    ensures p.phoneNumber.Some? ==> p.phoneNumber.value == phoneNumber
    ensures p.name == name && p.email == email && p.password == password
  {
    SignupPayload(name, email, password,
                  if budgetLimit == "" then None else toNumber(budgetLimit),
                  if phoneNumber == "" then None else Some(phoneNumber))
  }

  /** What validation guarantees about the payload it lets through: a budget
      is absent exactly when the field was empty and is otherwise positive,
      and a phone number is absent or matches the pattern. */
  lemma {:induction false} ValidPayload(name: string, email: string, password: string, budgetLimit: string,
                                        phoneNumber: string, isEmail: string -> bool, toNumber: string -> Option<int>)
    requires SignupIssues(SignupInputOf(name, email, password, budgetLimit, phoneNumber), isEmail, toNumber) == []
    ensures var p := PayloadOf(name, email, password, budgetLimit, phoneNumber, toNumber);
      && (p.budgetLimit == None <==> budgetLimit == "")
      && (p.budgetLimit.Some? ==> p.budgetLimit.value > 0)
      && (p.phoneNumber.Some? ==> PhoneMatches(p.phoneNumber.value))
      && |p.name| >= 2 && |p.password| >= 6 && isEmail(p.email)
  {
    SignupAccepts(SignupInputOf(name, email, password, budgetLimit, phoneNumber), isEmail, toNumber);
  }

  datatype SignupField = SignupName | SignupEmail | SignupPassword | SignupBudget | SignupPhone

  /** The error key of each sign-up field. */
  function KeyOf(field: SignupField): string
  {
    match field
    case SignupName => "name"
    case SignupEmail => "email"
    case SignupPassword => "password"
    case SignupBudget => "budgetLimit"
    case SignupPhone => "phoneNumber"
  }

  class SignupForm {
    var name: string
    var email: string
    var password: string
    var budgetLimit: string
    var phoneNumber: string
    var loading: bool
    var error: string
    var errors: map<string, string>

    constructor ()
      ensures name == "" && email == "" && password == "" && budgetLimit == "" && phoneNumber == ""
      ensures !loading && error == "" && errors == map[]
    {
      name, email, password, budgetLimit, phoneNumber := "", "", "", "", "";
      loading, error, errors := false, "", map[];
    }

    /** Typing in a field: sets it and clears that field's message only. */
    method Edit(field: SignupField, value: string)
      modifies this
      ensures errors == old(errors)[KeyOf(field) := ""]
      ensures name == (if field == SignupName then value else old(name))
      ensures email == (if field == SignupEmail then value else old(email))
      ensures password == (if field == SignupPassword then value else old(password))
      ensures budgetLimit == (if field == SignupBudget then value else old(budgetLimit))
      ensures phoneNumber == (if field == SignupPhone then value else old(phoneNumber))
      ensures loading == old(loading) && error == old(error)
    {
      match field {
        case SignupName => name := value;
        case SignupEmail => email := value;
        case SignupPassword => password := value;
        case SignupBudget => budgetLimit := value;
        case SignupPhone => phoneNumber := value;
      }
      errors := errors[KeyOf(field) := ""];
    }

    /** `onSubmit`. Returns the payload sent (None when validation stopped
        it) and the path navigated to. */
    method Submit(storage: LocalStorage, isEmail: string -> bool, toNumber: string -> Option<int>,
                  reply: Outcome<AuthReply>)
      returns (request: Option<SignupPayload>, navigated: Option<string>)
      modifies this, storage
      ensures name == old(name) && email == old(email) && password == old(password)
      ensures budgetLimit == old(budgetLimit) && phoneNumber == old(phoneNumber) && !loading
      ensures var issues := SignupIssues(SignupInputOf(name, email, password, budgetLimit, phoneNumber), isEmail, toNumber);
        issues != [] ==>
          && request == None && navigated == None && error == ""
          && IsFieldErrorMap(errors, issues)
          && storage.entries == old(storage.entries)
      ensures var issues := SignupIssues(SignupInputOf(name, email, password, budgetLimit, phoneNumber), isEmail, toNumber);
        issues == [] ==>
          && request == Some(PayloadOf(name, email, password, budgetLimit, phoneNumber, toNumber))
          && errors == map[]
          && (reply.Ok? ==> storage.entries == StoreSession(old(storage.entries), reply.value.token, reply.value.user)
                            && navigated == Some("/dashboard") && error == "")
          && (reply.Refused? ==> storage.entries == old(storage.entries) && navigated == None
                                 && error == Or(reply.message, "Signup failed"))
          && (reply.Failed? ==> storage.entries == old(storage.entries) && navigated == None
                                && error == reply.message)
    {
      error := "";
      errors := map[];
      request, navigated := None, None;
      var issues := SignupIssues(SignupInputOf(name, email, password, budgetLimit, phoneNumber), isEmail, toNumber);
      if issues != [] {
        errors := CollectFieldErrors(issues);
        loading := false;
        return;
      }
      loading := true;
      request := Some(PayloadOf(name, email, password, budgetLimit, phoneNumber, toNumber));
      match reply {
        case Ok(a) =>
          SaveSession(storage, a);
          navigated := Some("/dashboard");
        case Refused(m) =>
          error := Or(m, "Signup failed");
        case Failed(m) =>
          error := m;
      }
      loading := false;
    }
  }
}

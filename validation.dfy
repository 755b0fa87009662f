/** The field rules of src/hooks/useFormValidation.jsx. Each schema's
    `safeParse` is modelled as the list of issues it reports, one per failed
    check, in the order of the schema's fields and of each field's checks
    (string checks do not stop at the first failure). The library parts are
    parameters: `toNumber` is JavaScript's `Number(...)` (None for NaN),
    `isEmail` is the email format check, `notInFuture` is the comparison of a
    date string with the current time. */
module Validation {
  import opened Wrappers

  /** One reported problem: the field it is about and its message. */
  datatype Issue = Issue(field: string, message: string)

  /** `Number(s) > 0`; NaN compares false. */
  predicate IsPositive(toNumber: string -> Option<int>, s: string)
  {
    toNumber(s).Some? && toNumber(s).value > 0
  }

  predicate IsDigit(c: char)
  {
    '0' <= c <= '9'
  }

  /** Every character is an ASCII digit (`\d` without the `u` flag). */
  function AllDigits(s: string): (r: bool)
    ensures r <==> forall i :: 0 <= i < |s| ==> IsDigit(s[i])
  {
    s == [] || (IsDigit(s[0]) && AllDigits(s[1..]))
  }

  /** `/^\+?[1-9]\d{1,14}$/.test(s)`. A leading `+` is always taken when
      present, since backtracking over it cannot let `[1-9]` match `+`. */
  function PhoneMatches(s: string): (ok: bool)
    ensures ok ==> 2 <= |s| <= 16
    ensures ok ==> forall i :: 0 <= i < |s| ==> IsDigit(s[i]) || (i == 0 && s[i] == '+')
    ensures ok ==> |s| >= 2 && var d := if s[0] == '+' then s[1..] else s;
                     1 <= |d| - 1 <= 14 && '1' <= d[0] <= '9'
  {
    var digits := if |s| > 0 && s[0] == '+' then s[1..] else s;
    && 2 <= |digits| <= 15
    && '1' <= digits[0] <= '9'
    && AllDigits(digits[1..])
  }

  /** Every string of the pattern's shape matches it: an optional `+`, a
      nonzero digit, then one to fourteen further digits. */
  lemma {:induction false} PhoneShape(sign: string, first: char, rest: string)
    requires sign == "" || sign == "+"
    requires '1' <= first <= '9'
    requires 1 <= |rest| <= 14 && forall i :: 0 <= i < |rest| ==> IsDigit(rest[i])
    ensures PhoneMatches(sign + [first] + rest)
  {
    var s := sign + [first] + rest;
    var digits := if |s| > 0 && s[0] == '+' then s[1..] else s;
    assert digits == [first] + rest;
    assert digits[1..] == rest;
  }

  /** Numbers the phone pattern accepts: an international number and the
      shortest local one. */
  lemma PhoneAccepts()
    ensures PhoneMatches("+919876543210")
    ensures PhoneMatches("12")
  {
    var d := "19876543210";
    assert "+919876543210"[1..] == "919876543210";
    assert "919876543210"[1..] == d;
    assert forall i :: 0 <= i < |d| ==> IsDigit(d[i]);
    assert AllDigits(d);
  }

  /** Inputs the phone pattern rejects: too short, a leading zero, a doubled
      `+`, and seventeen digits. */
  lemma PhoneRejects()
    ensures !PhoneMatches("1")
    ensures !PhoneMatches("+0123")
    ensures !PhoneMatches("++12")
    ensures !PhoneMatches("12345678901234567")
  {
    assert "+0123"[1..] == "0123";
    assert "++12"[1..] == "+12";
  }

  /** The issue list for one check: empty when it passes. */
  function Check(ok: bool, field: string, message: string): seq<Issue>
  {
    if ok then [] else [Issue(field, message)]
  }

  datatype SignupInput = SignupInput(
    name: string,
    email: string,
    password: string,
    budgetLimit: Option<string>,
    phoneNumber: Option<string>)

  /** `signupSchema.safeParse(...)`. */
  function SignupIssues(f: SignupInput, isEmail: string -> bool, toNumber: string -> Option<int>): seq<Issue>
  {
    Check(|f.name| >= 2, "name", "Name must be at least 2 characters")
    + Check(isEmail(f.email), "email", "Invalid email address")
    + Check(|f.password| >= 6, "password", "Password must be at least 6 characters")
    + Check(f.budgetLimit == None || f.budgetLimit.value == "" || IsPositive(toNumber, f.budgetLimit.value),
            "budgetLimit", "Budget must be a positive number")
    + Check(f.phoneNumber == None || f.phoneNumber.value == "" || PhoneMatches(f.phoneNumber.value),
            "phoneNumber", "Invalid phone number format")
  }

  /** Sign-up input is accepted exactly when the name has at least 2
      characters, the email is well formed, the password has at least 6
      characters, the budget is absent, empty or a positive number, and the
      phone number is absent, empty or matches the pattern. */
  lemma SignupAccepts(f: SignupInput, isEmail: string -> bool, toNumber: string -> Option<int>)
    ensures SignupIssues(f, isEmail, toNumber) == [] <==>
      && |f.name| >= 2
      && isEmail(f.email)
      && |f.password| >= 6
      && (f.budgetLimit == None || f.budgetLimit.value == "" || IsPositive(toNumber, f.budgetLimit.value))
      && (f.phoneNumber == None || f.phoneNumber.value == "" || PhoneMatches(f.phoneNumber.value))
  {
  }

  /** Sign-up reports at most five issues, each about one of its five fields. */
  lemma {:induction false} SignupIssuesFields(f: SignupInput, isEmail: string -> bool, toNumber: string -> Option<int>)
    ensures |SignupIssues(f, isEmail, toNumber)| <= 5
    ensures forall i :: 0 <= i < |SignupIssues(f, isEmail, toNumber)| ==>
      SignupIssues(f, isEmail, toNumber)[i].field in {"name", "email", "password", "budgetLimit", "phoneNumber"}
  {
  }

  datatype SigninInput = SigninInput(email: string, password: string)

  /** `signinSchema.safeParse(...)`. */
  function SigninIssues(f: SigninInput, isEmail: string -> bool): seq<Issue>
  {
    Check(isEmail(f.email), "email", "Invalid email address")
    + Check(|f.password| >= 1, "password", "Password is required")
  }

  /** Sign-in input is accepted exactly when the email is well formed and the
      password is not empty. */
  lemma SigninAccepts(f: SigninInput, isEmail: string -> bool)
    ensures SigninIssues(f, isEmail) == [] <==> isEmail(f.email) && f.password != ""
  {
  }

  datatype ExpenseInput = ExpenseInput(
    title: string,
    amount: string,
    category: string,
    date: string,
    notes: Option<string>,
    isRecurring: Option<bool>,
    recurringFrequency: Option<string>)

  const Frequencies: seq<string> := ["weekly", "monthly", "yearly"]

  /** `expenseSchema.safeParse(...)`. `notes` and `isRecurring` have no rule
      beyond their type. */
  function ExpenseIssues(f: ExpenseInput, toNumber: string -> Option<int>, notInFuture: string -> bool): seq<Issue>
  {
    Check(|f.title| >= 1, "title", "Title is required")
    + Check(|f.title| >= 3, "title", "Title must be at least 3 characters")
    + Check(|f.amount| >= 1, "amount", "Amount is required")
    + Check(IsPositive(toNumber, f.amount), "amount", "Amount must be greater than 0")
    + Check(|f.category| >= 1, "category", "Category is required")
    + Check(notInFuture(f.date), "date", "Date cannot be in the future")
    + FrequencyIssues(f.recurringFrequency)
  }

  /** The optional `recurringFrequency` enum, with zod's message. */
  function FrequencyIssues(freq: Option<string>): seq<Issue>
  {
    Check(freq == None || freq.value in Frequencies, "recurringFrequency",
          "Invalid enum value. Expected 'weekly' | 'monthly' | 'yearly', received '"
          + (if freq.Some? then freq.value else "") + "'")
  }

  /** An expense is accepted exactly when its title has at least 3
      characters, its amount is non-empty and a positive number, its category
      is non-empty, its date is not in the future and its frequency is absent
      or one of weekly, monthly and yearly. */
  lemma ExpenseAccepts(f: ExpenseInput, toNumber: string -> Option<int>, notInFuture: string -> bool)
    ensures ExpenseIssues(f, toNumber, notInFuture) == [] <==>
      && |f.title| >= 3
      && f.amount != ""
      && IsPositive(toNumber, f.amount)
      && f.category != ""
      && notInFuture(f.date)
      && (f.recurringFrequency == None || f.recurringFrequency.value in {"weekly", "monthly", "yearly"})
  {
  }

  /** An empty title fails both of its checks, "required" first. */
  lemma EmptyTitleTwoIssues(f: ExpenseInput, toNumber: string -> Option<int>, notInFuture: string -> bool)
    requires f.title == ""
    ensures ExpenseIssues(f, toNumber, notInFuture)[..2] ==
      [Issue("title", "Title is required"), Issue("title", "Title must be at least 3 characters")]
  {
  }

  /** `formatValidationError(field, error)`: `error?.message || \`${field} is invalid\``. */
  function FormatValidationError(field: string, message: Option<string>): (r: string)
    ensures message.Some? && message.value != "" ==> r == message.value
    ensures message == None || message == Some("") ==> r == field + " is invalid"
  {
    Or(if message.Some? then message.value else "", field + " is invalid")
  }
}

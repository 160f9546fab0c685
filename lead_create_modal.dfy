/**
 * The new-lead form of src/components/LeadCreateModal.tsx: the email and phone
 * checks of `validateField`, the `formData` and `errors` records it updates, the
 * guards of `handleSubmit` and the reset after a lead is created.
 */
module LeadCreateModal {
  import opened Outcomes
  import opened JsText
  import opened Toasts

  /** A character allowed in each part of an email address: no white space, no `@`. */
  predicate EmailPartChar(c: char) {
    !IsSpace(c) && c != '@'
  }

  predicate EmailPart(s: string) {
    s != [] && forall k :: 0 <= k < |s| ==> EmailPartChar(s[k])
  }

  /** The email regular expression, stated by position: no white space, exactly one
      `@` with something before it, and a `.` after it that is neither right after
      the `@` nor the last character. */
  predicate EmailPattern(s: string) {
    (forall k :: 0 <= k < |s| ==> !IsSpace(s[k])) &&
    exists i, j :: 0 < i && i + 1 < j && j + 1 < |s| && s[i] == '@' && s[j] == '.' &&
      forall k :: 0 <= k < |s| && k != i ==> s[k] != '@'
  }

  /** Every text of the form `a@b.c` with three non-empty parts free of white space
      and `@` matches. */
  lemma EmailPatternIntro(a: string, b: string, c: string)
    requires EmailPart(a) && EmailPart(b) && EmailPart(c)
    ensures EmailPattern(a + ['@'] + b + ['.'] + c)
  {
    var s := a + ['@'] + b + ['.'] + c;
    var i, j := |a|, |a| + 1 + |b|;
    forall k | 0 <= k < |s| ensures !IsSpace(s[k]) && (k != i ==> s[k] != '@') {
      if k < i {
        assert s[k] == a[k];
      } else if i < k < j {
        assert s[k] == b[k - i - 1];
      } else if j < k {
        assert s[k] == c[k - j - 1];
      }
    }
    assert s[i] == '@' && s[j] == '.';
  }

  /** And every match is of that form. */
  lemma EmailPatternSplit(s: string) returns (a: string, b: string, c: string)
    requires EmailPattern(s)
    ensures s == a + ['@'] + b + ['.'] + c
    ensures EmailPart(a) && EmailPart(b) && EmailPart(c)
  {
    var i, j :| 0 < i && i + 1 < j && j + 1 < |s| && s[i] == '@' && s[j] == '.' &&
      forall k :: 0 <= k < |s| && k != i ==> s[k] != '@';
    a, b, c := s[..i], s[i + 1..j], s[j + 1..];
    assert s == a + ['@'] + b + ['.'] + c;
    forall k | 0 <= k < |b| ensures EmailPartChar(b[k]) {
      assert b[k] == s[i + 1 + k];
    }
    forall k | 0 <= k < |c| ensures EmailPartChar(c[k]) {
      assert c[k] == s[j + 1 + k];
    }
  }

  predicate PhoneChar(c: char) {
    IsDigit(c) || c == '+' || c == '-' || IsSpace(c)
  }

  /** The phone regular expression: 9 to 16 characters, each a digit, `+`, `-` or
      white space. */
  predicate PhonePattern(s: string) {
    9 <= |s| <= 16 && forall k :: 0 <= k < |s| ==> PhoneChar(s[k])
  }

  const EmailError: string := "Invalid email format."
  const PhoneError: string := "Invalid phone format (9-16 digits/chars)."

  /** The error `validateField(name, value)` records under `name`. */
  function FieldError(name: string, value: string): (e: string)
    ensures e != "" ==> name == "email" || name == "phone"
    ensures name == "email" ==> (e != "" <==> !EmailPattern(value)) && (e != "" ==> e == EmailError)
    ensures name == "phone" ==> (e != "" <==> value != "" && !PhonePattern(value)) && (e != "" ==> e == PhoneError)
  {
    if name == "email" then (if !EmailPattern(value) then EmailError else "")
    else if name == "phone" then (if value != "" && !PhonePattern(value) then PhoneError else "")
    else ""
  }

  const InitialForm: map<string, string> :=
    map["name" := "", "email" := "", "phone" := "", "language" := "es", "source" := "web"]
  const NoErrors: map<string, string> := map["email" := "", "phone" := ""]

  function Field(m: map<string, string>, key: string): string {
    if key in m then m[key] else ""
  }

  datatype Decision = MissingRequired | PendingErrors | BadEmail | Create

  const RequiredToast := Toast("Validation Error", "Name and Email are required.", true)
  const PendingToast := Toast("Validation Error", "Please fix the validation errors before submitting.", true)
  const CreatedToast := Toast("Lead created", "The lead has been successfully created.", false)
  const CreateFailedToast := Toast("Error", "Could not create the lead. Please try again.", true)

  /** The guards of `handleSubmit`, in order. */
  function SubmitDecision(form: map<string, string>, errors: map<string, string>): Decision {
    if Field(form, "name") == "" || Field(form, "email") == "" then MissingRequired
    else if Field(errors, "email") != "" || Field(errors, "phone") != "" then PendingErrors
    else if !EmailPattern(Field(form, "email")) then BadEmail
    else Create
  }

  /** A lead is created exactly when name and email are given, no error is pending and
      the email matches; a missing field is reported before anything else. */
  lemma SubmitDecisionCases(form: map<string, string>, errors: map<string, string>)
    ensures SubmitDecision(form, errors) == Create <==>
      Field(form, "name") != "" && Field(form, "email") != "" &&
      Field(errors, "email") == "" && Field(errors, "phone") == "" && EmailPattern(Field(form, "email"))
    ensures Field(form, "name") == "" ==> SubmitDecision(form, errors) == MissingRequired
    ensures SubmitDecision(form, errors) == BadEmail ==> !EmailPattern(Field(form, "email"))
  {
  }

  /** The modal's `formData` and `errors` state. */
  class LeadForm {
    var formData: map<string, string>
    var errors: map<string, string>

    /** Only the email and phone keys ever hold an error. */
    predicate Valid()
      reads this
    {
      forall k :: k in errors && errors[k] != "" ==> k == "email" || k == "phone"
    }

    constructor()
      ensures formData == InitialForm && errors == NoErrors && Valid()
    {
      formData := InitialForm;
      errors := NoErrors;
    }

    /** `validateField(name, value)`: only the named key of `errors` changes. */
    method ValidateField(name: string, value: string)
      requires Valid()
      modifies this
      ensures formData == old(formData)
      ensures errors == old(errors)[name := FieldError(name, value)]
      ensures Valid()
    {
      var error := "";
      if name == "email" {
        if !EmailPattern(value) {
          error := EmailError;
        }
      }
      if name == "phone" {
        if value != "" && !PhonePattern(value) {
          error := PhoneError;
        }
      }
      errors := errors[name := error];
    }

    /** `handleChange` for the input `id`. */
    method HandleChange(id: string, value: string)
      requires Valid()
      modifies this
      ensures formData == old(formData)[id := value]
      ensures errors == old(errors)[id := FieldError(id, value)]
      ensures Valid()
    {
      formData := formData[id := value];
      ValidateField(id, value);
    }

    /** `handleSubmit`; `succeeded` is the outcome of the `createLead` mutation when it
        is started.  Returns the record handed to `createLead`, if any, and the toast. */
    method HandleSubmit(succeeded: bool) returns (sent: Option<map<string, string>>, toast: Option<Toast>)
      requires Valid()
      modifies this
      ensures Valid()
      ensures sent.Some? <==> SubmitDecision(old(formData), old(errors)) == Create
      ensures sent.Some? ==> sent.value == old(formData)
      ensures SubmitDecision(old(formData), old(errors)) == MissingRequired ==>
        toast == Some(RequiredToast) && unchanged(this)
      ensures SubmitDecision(old(formData), old(errors)) == PendingErrors ==>
        toast == Some(PendingToast) && unchanged(this)
      ensures SubmitDecision(old(formData), old(errors)) == BadEmail ==>
        toast == None && formData == old(formData) && errors == old(errors)["email" := EmailError]
      ensures sent.Some? && succeeded ==>
        toast == Some(CreatedToast) && formData == InitialForm && errors == NoErrors
      ensures sent.Some? && !succeeded ==>
        toast == Some(CreateFailedToast) && unchanged(this)
    {
      if Field(formData, "name") == "" || Field(formData, "email") == "" {
        return None, Some(RequiredToast);
      }
      if Field(errors, "email") != "" || Field(errors, "phone") != "" {
        return None, Some(PendingToast);
      }
      if !EmailPattern(Field(formData, "email")) {
        errors := errors["email" := EmailError];
        return None, None;
      }
      sent := Some(formData);
      if succeeded {
        toast := Some(CreatedToast);
        formData := InitialForm;
        errors := NoErrors;
      } else {
        toast := Some(CreateFailedToast);
      }
    }
  }
}

// The registration wizard of src/hooks/useRegistration.ts: a linear sequence
// of steps (email, name, gender, avatar, completed) over one form record. A
// step advances only when its validator accepts the form; a validator that
// rejects writes its message into the error cell.
module Registration {
  import opened JsText

  datatype Gender = Male | Female

  datatype RegistrationStep = Email | Name | GenderStep | AvatarStep | Completed

  datatype RegistrationData = RegistrationData(
    email: string, password: string, passwordConfirm: string,
    name: string, gender: Option<Gender>, avatar: string)

  /** A non-empty run of characters that are neither white space nor '@'
      (the class [^\s@]+ of the email pattern). */
  predicate Part(x: string)
  {
    |x| > 0 && forall k :: 0 <= k < |x| ==> !IsWhitespace(x[k]) && x[k] != '@'
  }

  /** The email pattern /^[^\s@]+@[^\s@]+\.[^\s@]+$/, stated by the positions
      of the '@' and of the '.' that split the address into three parts. */
  predicate EmailPattern(s: string)
  {
    exists i, j :: 0 < i < j < |s| && s[i] == '@' && s[j] == '.' &&
      Part(s[..i]) && Part(s[i + 1..j]) && Part(s[j + 1..])
  }

  /** The first position of `c` in `s`, or |s| when there is none. */
  function Find(s: string, c: char): (r: nat)
    ensures r <= |s| && c !in s[..r]
    ensures r < |s| ==> s[r] == c
  {
    if s == [] then 0
    else if s[0] == c then 0
    else
      var k := Find(s[1..], c);
      assert s[..k + 1] == [s[0]] + s[1..][..k];
      k + 1
  }

  /** A single scan for the email pattern: the text before the first '@' and
      the text after it are free of white space and '@', the first is
      non-empty, and the second has a '.' strictly inside it. */
  predicate EmailShape(s: string)
  {
    var i := Find(s, '@');
    0 < i < |s| &&
    Part(s[..i]) && Part(s[i + 1..]) &&
    |s| - i >= 4 && Find(s[i + 2..|s| - 1], '.') < |s| - i - 3
  }

  /** The scan accepts exactly the strings the email pattern matches. */
  lemma EmailShapeIsPattern(s: string)
    ensures EmailShape(s) <==> EmailPattern(s)
  {
    if EmailShape(s) {
      ShapeMatchesPattern(s);
    }
    if EmailPattern(s) {
      var i, j :| 0 < i < j < |s| && s[i] == '@' && s[j] == '.' &&
        Part(s[..i]) && Part(s[i + 1..j]) && Part(s[j + 1..]);
      PatternPassesScan(s, i, j);
    }
  }

  lemma ShapeMatchesPattern(s: string)
    requires EmailShape(s)
    ensures EmailPattern(s)
  {
    var i := Find(s, '@');
    var rest := s[i + 1..];
    var d := s[i + 2..|s| - 1];
    var j := i + 2 + Find(d, '.');
    assert s[j] == d[j - i - 2];
    assert s[i + 1..j] == rest[..j - i - 1];
    assert s[j + 1..] == rest[j - i..];
  }

  lemma PatternPassesScan(s: string, i: nat, j: nat)
    requires 0 < i < j < |s| && s[i] == '@' && s[j] == '.'
    requires Part(s[..i]) && Part(s[i + 1..j]) && Part(s[j + 1..])
    ensures EmailShape(s)
  {
    assert '@' !in s[..i];
    assert Find(s, '@') == i;
    var rest := s[i + 1..];
    assert rest == s[i + 1..j] + ['.'] + s[j + 1..];
    assert Part(rest);
    var d := s[i + 2..|s| - 1];
    assert d[j - i - 2] == '.';
    assert Find(d, '.') <= j - i - 2;
  }

  predicate HasLower(p: string) { exists k :: 0 <= k < |p| && IsLower(p[k]) }
  predicate HasUpper(p: string) { exists k :: 0 <= k < |p| && IsUpper(p[k]) }
  predicate HasDigit(p: string) { exists k :: 0 <= k < |p| && IsDigit(p[k]) }

  /** The password pattern /^(?=.*[a-z])(?=.*[A-Z])(?=.*\d).+$/: one line of
      text holding a lower-case letter, an upper-case letter and a digit. */
  predicate PasswordPattern(p: string)
  {
    |p| >= 1 && (forall k :: 0 <= k < |p| ==> !IsLineTerminator(p[k])) &&
    HasLower(p) && HasUpper(p) && HasDigit(p)
  }

  /** What the email step demands of the form. */
  predicate EmailStepValid(d: RegistrationData)
  {
    !AllWhitespace(d.email) && EmailPattern(d.email) &&
    |d.password| >= 8 && PasswordPattern(d.password) &&
    d.password == d.passwordConfirm
  }

  /** `validateEmail`: the first failing check's message, or None. */
  function EmailError(d: RegistrationData): Option<string>
  {
    if Trim(d.email) == "" then Some("Email is required")
    else if !EmailShape(d.email) then Some("Invalid email format")
    else if d.password == "" then Some("Password is required")
    else if |d.password| < 8 then Some("Password must be at least 8 characters")
    else if !PasswordPattern(d.password) then
      Some("Password must contain at least one uppercase letter, one lowercase letter, and one number")
    else if d.password != d.passwordConfirm then Some("Passwords do not match")
    else None
  }

  /** The email step accepts exactly the forms `EmailStepValid` describes. */
  lemma EmailErrorIff(d: RegistrationData)
    ensures EmailError(d) == None <==> EmailStepValid(d)
  {
    TrimEmptyIff(d.email);
    EmailShapeIsPattern(d.email);
    if EmailError(d) == None {
      assert d.password != "" && |d.password| >= 8;
    }
  }

  /** A blank address and a malformed one are reported before anything about
      the password. */
  lemma EmailErrorOrder(d: RegistrationData)
    ensures AllWhitespace(d.email) ==> EmailError(d) == Some("Email is required")
    ensures !AllWhitespace(d.email) && !EmailPattern(d.email) ==> EmailError(d) == Some("Invalid email format")
  {
    TrimEmptyIff(d.email);
    EmailShapeIsPattern(d.email);
  }

  /** `validateName`: the trimmed name needs at least two characters. */
  function NameError(d: RegistrationData): (r: Option<string>)
    ensures r == None <==> |Trim(d.name)| >= 2
    ensures AllWhitespace(d.name) ==> r == Some("Name is required")
  {
    TrimEmptyIff(d.name);
    if Trim(d.name) == "" then Some("Name is required")
    else if |Trim(d.name)| < 2 then Some("Name must be at least 2 characters")
    else None
  }

  function GenderError(d: RegistrationData): (r: Option<string>)
    ensures r == None <==> d.gender.Some?
  {
    if d.gender.None? then Some("Please select a gender") else None
  }

  function AvatarError(d: RegistrationData): (r: Option<string>)
    ensures r == None <==> d.avatar != ""
  {
    if d.avatar == "" then Some("Please upload an avatar") else None
  }

  /** The message of the first validator, in step order, that rejects the form. */
  function FirstError(d: RegistrationData): Option<string>
  {
    if EmailError(d).Some? then EmailError(d)
    else if NameError(d).Some? then NameError(d)
    else if GenderError(d).Some? then GenderError(d)
    else AvatarError(d)
  }

  /** All four validators accept the form. */
  predicate FormValid(d: RegistrationData)
  {
    FirstError(d) == None
  }

  lemma FormValidHasGender(d: RegistrationData)
    requires FormValid(d)
    ensures d.gender.Some?
  {
  }

  lemma FormValidIff(d: RegistrationData)
    ensures FormValid(d) <==> EmailStepValid(d) && |Trim(d.name)| >= 2 && d.gender.Some? && d.avatar != ""
  {
    EmailErrorIff(d);
  }

  /** The validator that guards leaving a step; `completed` has none. */
  function StepError(step: RegistrationStep, d: RegistrationData): Option<string>
    requires step != Completed
  {
    match step
    case Email => EmailError(d)
    case Name => NameError(d)
    case GenderStep => GenderError(d)
    case AvatarStep => AvatarError(d)
  }

  function Successor(step: RegistrationStep): RegistrationStep
    requires step != Completed
  {
    match step
    case Email => Name
    case Name => GenderStep
    case GenderStep => AvatarStep
    case AvatarStep => Completed
  }

  function Predecessor(step: RegistrationStep): RegistrationStep
  {
    match step
    case Email => Email
    case Name => Email
    case GenderStep => Name
    case AvatarStep => GenderStep
    case Completed => AvatarStep
  }

  /** Going back undoes going forward, and going forward undoes going back
      from every step but the first. */
  lemma StepsAreLinear(step: RegistrationStep)
    ensures step != Completed ==> Predecessor(Successor(step)) == step
    ensures step != Email ==> Successor(Predecessor(step)) == step
  {
  }

  /** One form field and its new value, as passed to `updateData`. */
  datatype FieldUpdate =
    | SetEmail(email: string) | SetPassword(password: string) | SetPasswordConfirm(confirm: string)
    | SetName(name: string) | SetGender(gender: Option<Gender>) | SetAvatar(avatar: string)

  /** The form after `updateData`: the named field holds the value, the others are kept. */
  function Updated(d: RegistrationData, u: FieldUpdate): (r: RegistrationData)
    ensures u.SetEmail? ==> r == d.(email := u.email)
    ensures u.SetPassword? ==> r == d.(password := u.password)
    ensures u.SetPasswordConfirm? ==> r == d.(passwordConfirm := u.confirm)
    ensures u.SetName? ==> r == d.(name := u.name)
    ensures u.SetGender? ==> r == d.(gender := u.gender)
    ensures u.SetAvatar? ==> r == d.(avatar := u.avatar)
  {
    match u
    case SetEmail(v) => d.(email := v)
    case SetPassword(v) => d.(password := v)
    case SetPasswordConfirm(v) => d.(passwordConfirm := v)
    case SetName(v) => d.(name := v)
    case SetGender(v) => d.(gender := v)
    case SetAvatar(v) => d.(avatar := v)
  }

  /** What `completeRegistration` sends to the registration endpoint. */
  datatype RegisterRequest = RegisterRequest(email: string, password: string, name: string, gender: Gender, avatar: string)

  /** The request built from an accepted form: the name is sent trimmed. */
  function RequestOf(d: RegistrationData): (r: RegisterRequest)
    requires d.gender.Some?
  {
    RegisterRequest(d.email, d.password, Trim(d.name), d.gender.value, d.avatar)
  }

  /** The endpoint's answer: success, or a failure with the thrown error's
      message when it was an Error. */
  datatype RegisterOutcome = Registered | RegisterFailed(message: Option<string>)

  /** The message a failed registration leaves: the thrown error's own, or a fixed one. */
  function FailureMessage(outcome: RegisterOutcome): (m: string)
    ensures outcome.RegisterFailed? && outcome.message.Some? ==> m == outcome.message.value
    ensures (outcome.RegisterFailed? && outcome.message.None?) ==> m == "Registration failed"
  {
    if outcome.RegisterFailed? && outcome.message.Some? then outcome.message.value else "Registration failed"
  }

  function EmptyData(): RegistrationData
  {
    RegistrationData("", "", "", "", None, "")
  }

  class RegistrationFlow {
    var currentStep: RegistrationStep
    var data: RegistrationData
    var isLoading: bool
    var error: Option<string>

    constructor ()
      ensures currentStep == Email && data == EmptyData() && !isLoading && error == None
    {
      currentStep := Email;
      data := EmptyData();
      isLoading := false;
      error := None;
    }

    method UpdateData(u: FieldUpdate)
      modifies this`data, this`error
      ensures data == Updated(old(data), u) && error == None
    {
      data := Updated(data, u);
      error := None;
    }

    /** Runs the validator of `step`; a rejection writes its message. */
    method Validate(step: RegistrationStep) returns (ok: bool)
      requires step != Completed
      modifies this`error
      ensures ok <==> StepError(step, data) == None
      ensures ok ==> error == old(error)
      ensures !ok ==> error == StepError(step, data)
    {
      var e := StepError(step, data);
      if e.Some? {
        error := e;
        return false;
      }
      return true;
    }

    /** `validateEmail() && validateName() && validateGender() && validateAvatar()`,
        which stops at the first rejection and leaves its message. */
    method ValidateAll() returns (ok: bool)
      modifies this`error
      ensures ok <==> FormValid(data)
      ensures ok ==> error == old(error)
      ensures !ok ==> error == FirstError(data)
    {
      ok := Validate(Email);
      if ok { ok := Validate(Name); }
      if ok { ok := Validate(GenderStep); }
      if ok { ok := Validate(AvatarStep); }
    }

    method GoToStep(step: RegistrationStep)
      modifies this`currentStep, this`error
      ensures currentStep == step && error == None
    {
      currentStep := step;
      error := None;
    }

    /** Advances one step when the current step's validator accepts the form;
        at `completed` nothing matches and the answer is false. */
    method NextStep() returns (isValid: bool)
      modifies this`currentStep, this`error
      ensures old(currentStep) == Completed ==> !isValid && currentStep == Completed && error == old(error)
      ensures old(currentStep) != Completed ==> (isValid <==> StepError(old(currentStep), data) == None)
      ensures isValid ==> currentStep == Successor(old(currentStep)) && error == old(error)
      ensures !isValid && old(currentStep) != Completed ==>
        currentStep == old(currentStep) && error == StepError(old(currentStep), data)
    {
      isValid := false;
      if currentStep != Completed {
        isValid := Validate(currentStep);
        if isValid {
          currentStep := Successor(currentStep);
        }
      }
    }

    method PreviousStep()
      modifies this`currentStep, this`error
      ensures currentStep == Predecessor(old(currentStep)) && error == None
    {
      currentStep := Predecessor(currentStep);
      error := None;
    }

    /** The part of `completeRegistration` after validation: the loading flag
        is raised, the request is sent, and the outcome is recorded. */
    method Submit(outcome: RegisterOutcome) returns (ok: bool, sent: RegisterRequest)
      requires data.gender.Some?
      modifies this`currentStep, this`isLoading, this`error
      ensures sent == RequestOf(data) && !isLoading
      ensures ok <==> outcome.Registered?
      ensures ok ==> currentStep == Completed && error == None
      ensures !ok ==> currentStep == old(currentStep) && error == Some(FailureMessage(outcome))
    {
      isLoading := true;
      error := None;
      sent := RequestOf(data);
      if outcome.Registered? {
        currentStep := Completed;
        ok := true;
      } else {
        error := Some(FailureMessage(outcome));
        ok := false;
      }
      isLoading := false;
    }

    /** Validates the whole form, in step order, and on success submits it
        with the name trimmed. The request sent, if any, is returned. */
    method CompleteRegistration(outcome: RegisterOutcome) returns (ok: bool, sent: Option<RegisterRequest>)
      modifies this`currentStep, this`isLoading, this`error
      ensures sent.Some? <==> FormValid(data)
      ensures sent.Some? ==> data.gender.Some? && sent.value == RequestOf(data)
      ensures ok <==> sent.Some? && outcome.Registered?
      ensures ok ==> currentStep == Completed && error == None
      ensures sent.None? ==> currentStep == old(currentStep) && error == FirstError(data) && isLoading == old(isLoading)
      ensures sent.Some? ==> !isLoading
      ensures sent.Some? && !ok ==> currentStep == old(currentStep) && error == Some(FailureMessage(outcome))
    {
      var valid := ValidateAll();
      if !valid {
        return false, None;
      }
      FormValidHasGender(data);
      var request;
      ok, request := Submit(outcome);
      sent := Some(request);
    }

    method Reset()
      modifies this
      ensures currentStep == Email && data == EmptyData() && error == None && !isLoading
    {
      currentStep := Email;
      data := EmptyData();
      error := None;
      isLoading := false;
    }
  }
}

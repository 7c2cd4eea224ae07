/** The password-confirmation form shown while setting up a server password:
    two password fields, a "show password" checkbox and an OK button. Submitting
    forwards the password to an injected asynchronous setter when the two
    entries agree, and a loading flag keeps a second submit from starting
    another call while one is pending.

    The `await` splits a successful submit into two events: the submit itself,
    which sets the flag and starts the call, and the call's completion, which
    clears it. */
module PasswordConfirmation {

  /** The form's state slots. */
  datatype Form = Form(password1: string, password2: string, showPassword: bool, loading: bool)

  /** The state of a freshly shown form. */
  const Initial := Form("", "", false, false)

  /** What a submit does besides updating the state: nothing, report an error
      through the injected `onError`, or call the injected `onSetPassword`. */
  datatype SubmitEffect = Ignored | ReportError(kind: string) | CallSetPassword(password: string)

  /** The three controls that submit the form: Enter in the password field,
      Enter in the confirmation field, and the OK button. */
  datatype Trigger = EnterInPassword | EnterInConfirmation | PressOk

  /** The effect of a submit: ignored while a call is pending; otherwise one
      call with the first password when the entries are equal (both empty
      included), and a "password-match" error report when they differ. */
  function Submitted(f: Form): (r: SubmitEffect)
    ensures r == Ignored <==> f.loading
    ensures r.CallSetPassword? <==> !f.loading && f.password1 == f.password2
    ensures r.CallSetPassword? ==> r.password == f.password1
    ensures r.ReportError? ==> r.kind == "password-match"
  {
    if f.loading then Ignored
    else if f.password1 == f.password2 then CallSetPassword(f.password1)
    else ReportError("password-match")
  }

  /** The state after a submit: the loading flag is raised exactly when a call
      starts, and nothing else changes; an ignored or mismatched submit leaves
      the whole state as it was. */
  function AfterSubmit(f: Form): (r: Form)
    ensures r.loading <==> f.loading || f.password1 == f.password2
    ensures r.(loading := f.loading) == f
    ensures !Submitted(f).CallSetPassword? ==> r == f
  {
    if !f.loading && f.password1 == f.password2 then f.(loading := true) else f
  }

  /** The state after the pending call completes normally: the loading flag is
      down again and the entries are kept. */
  function AfterCallResolved(f: Form): (r: Form)
    ensures !r.loading
    ensures r.(loading := f.loading) == f
  {
    f.(loading := false)
  }

  /** The form component: one field per state slot, one method per handler. */
  class ConfirmPasswordForm {
    var password1: string
    var password2: string
    var showPassword: bool
    var loading: bool

    function State(): Form
      reads this
    {
      Form(password1, password2, showPassword, loading)
    }

    constructor ()
      ensures State() == Initial
    {
      password1 := "";
      password2 := "";
      showPassword := false;
      loading := false;
    }

    /** Typing in the password field. */
    method SetPassword1(value: string)
      modifies this
      ensures State() == old(State()).(password1 := value)
    {
      password1 := value;
    }

    /** Typing in the confirmation field. */
    method SetPassword2(value: string)
      modifies this
      ensures State() == old(State()).(password2 := value)
    {
      password2 := value;
    }

    /** The checkbox's change handler copies the box's checked state; it
        touches neither password. */
    method OnShowPassword(checked: bool)
      modifies this
      ensures State() == old(State()).(showPassword := checked)
    {
      showPassword := checked;
    }

    /** `onSubmit` up to its `await`. */
    method SubmitStart() returns (r: SubmitEffect)
      modifies this
      ensures r == Submitted(old(State()))
      ensures State() == AfterSubmit(old(State()))
    {
      if loading {
        return Ignored;
      }
      if password1 == password2 {
        loading := true;
        r := CallSetPassword(password1);
      } else {
        r := ReportError("password-match");
      }
    }

    /** `onSubmit` after its `await`, when the call completes normally. A call
        that is rejected never reaches this step, so its flag stays up. */
    method SetPasswordCompleted()
      modifies this
      ensures State() == AfterCallResolved(old(State()))
    {
      loading := false;
    }

    /** Every trigger runs the same handler, so all three behave alike. */
    method OnTrigger(t: Trigger) returns (r: SubmitEffect)
      modifies this
      ensures r == Submitted(old(State()))
      ensures State() == AfterSubmit(old(State()))
    {
      r := SubmitStart();
    }
  }

  /** A run of the form together with its setter: the form's state, how many
      setter calls are pending, and the calls and error reports made so far. */
  datatype Session = Session(form: Form, inFlight: nat, log: seq<SubmitEffect>)

  const Start := Session(Initial, 0, [])

  /** The events of a run. A completion can only happen to a pending call:
      with none pending it is a no-op. */
  datatype Event =
    | EditPassword(value: string)
    | EditConfirmation(value: string)
    | CheckShowPassword(checked: bool)
    | Submit(trigger: Trigger)
    | CallResolved
    | CallRejected

  function Step(s: Session, e: Event): Session {
    match e
    case EditPassword(v) => s.(form := s.form.(password1 := v))
    case EditConfirmation(v) => s.(form := s.form.(password2 := v))
    case CheckShowPassword(b) => s.(form := s.form.(showPassword := b))
    case Submit(_) =>
      var r := Submitted(s.form);
      s.(form := AfterSubmit(s.form),
         inFlight := if r.CallSetPassword? then s.inFlight + 1 else s.inFlight,
         log := if r == Ignored then s.log else s.log + [r])
    case CallResolved =>
      if s.inFlight == 0 then s
      else s.(form := AfterCallResolved(s.form), inFlight := s.inFlight - 1)
    case CallRejected =>
      if s.inFlight == 0 then s else s.(inFlight := s.inFlight - 1)
  }

  function Run(s: Session, es: seq<Event>): Session
    decreases |es|
  {
    if es == [] then s else Run(Step(s, es[0]), es[1..])
  }

  /** The re-entrancy guard's invariant: at most one call is pending, and
      while one is, the loading flag is up. */
  predicate Guarded(s: Session) {
    s.inFlight <= 1 && (s.inFlight == 1 ==> s.form.loading)
  }

  lemma {:induction false} GuardedIsPreserved(s: Session, es: seq<Event>)
    requires Guarded(s)
    ensures Guarded(Run(s, es))
    decreases |es|
  {
    if es != [] {
      GuardedIsPreserved(Step(s, es[0]), es[1..]);
    }
  }

  /** Whatever the user does and however the calls end, a fresh form never
      has more than one setter call pending. */
  lemma AtMostOneCallInFlight(es: seq<Event>)
    ensures Run(Start, es).inFlight <= 1
  {
    GuardedIsPreserved(Start, es);
  }

  /** While a call is pending, every submit, from any trigger, is ignored:
      no call, no report, no change of state. */
  lemma SubmitWhilePendingIsIgnored(s: Session, t: Trigger)
    requires Guarded(s) && s.inFlight == 1
    ensures Step(s, Submit(t)) == s
  {
  }

  /** Once a call has been rejected, the loading flag is never cleared (there
      is no `finally`): from then on nothing the user does makes another call
      or reports another error. */
  lemma {:induction false} RejectedCallLocksForm(s: Session, es: seq<Event>)
    requires s.form.loading && s.inFlight == 0
    ensures Run(s, es).form.loading
    ensures Run(s, es).inFlight == 0
    ensures Run(s, es).log == s.log
    decreases |es|
  {
    if es != [] {
      RejectedCallLocksForm(Step(s, es[0]), es[1..]);
    }
  }

  /** Submitting matching (here empty) entries and having the call rejected
      leaves the form in exactly that locked state. */
  lemma RejectionScenario()
    ensures Run(Start, [Submit(PressOk), CallRejected]).form.loading
    ensures Run(Start, [Submit(PressOk), CallRejected]).inFlight == 0
    ensures Run(Start, [Submit(PressOk), CallRejected]).log == [CallSetPassword("")]
  {
  }

  /** The events with every checkbox change removed. */
  function WithoutShowPassword(es: seq<Event>): (r: seq<Event>)
    ensures |r| <= |es|
    ensures forall i :: 0 <= i < |r| ==> !r[i].CheckShowPassword?
  {
    if es == [] then []
    else if es[0].CheckShowPassword? then WithoutShowPassword(es[1..])
    else [es[0]] + WithoutShowPassword(es[1..])
  }

  /** Two sessions that differ at most in the "show password" flag. */
  predicate SameButShowPassword(a: Session, b: Session) {
    a.(form := a.form.(showPassword := b.form.showPassword)) == b
  }

  /** The "show password" flag never influences the passwords, the loading
      flag, the calls or the error reports: a run with every checkbox change
      removed ends in the same state except for that flag. */
  lemma {:induction false} ShowPasswordIsIrrelevant(a: Session, b: Session, es: seq<Event>)
    requires SameButShowPassword(a, b)
    ensures SameButShowPassword(Run(a, es), Run(b, WithoutShowPassword(es)))
    decreases |es|
  {
    if es != [] {
      var e := es[0];
      if e.CheckShowPassword? {
        ShowPasswordIsIrrelevant(Step(a, e), b, es[1..]);
      } else {
        var rest := WithoutShowPassword(es[1..]);
        assert WithoutShowPassword(es) == [e] + rest;
        assert ([e] + rest)[0] == e && ([e] + rest)[1..] == rest;
        ShowPasswordIsIrrelevant(Step(a, e), Step(b, e), es[1..]);
      }
    }
  }
}

/** The "Create Local Account" dialog: a name, an off-budget flag and an
    opening balance, validated on submit against the names of the existing
    accounts. When both checks pass, the dialog closes its modal, creates the
    account and navigates to it.

    Whether a balance text is a number (`!isNaN(parseFloat(balance))`) is a
    floating-point library check; it enters the model as the function value
    `parses`, about which nothing is assumed. */
module AccountCreation {
  import opened JsString

  /** The name error the dialog shows under the name field. */
  datatype NameError = None | Empty | Duplicate

  /** The dialog's state slots. */
  datatype Form = Form(
    name: string,
    offbudget: bool,
    balance: string,
    nameError: NameError,
    balanceError: bool)

  /** The state of a freshly opened dialog. */
  const Initial := Form("", false, "0", None, false)

  /** What a submit does besides updating the state. `Create` stands for the
      effects fired in this order: close the modal, create the account with
      this name, the number read from this balance text and this flag, then
      navigate to the new account's page. `Blocked` fires none of them. */
  datatype Outcome = Blocked | Create(name: string, balance: string, offbudget: bool)

  /** `accounts.findIndex(a => a.name === newName)` over the account names:
      the position of the first account with exactly that name, or -1. */
  function FindIndexByName(names: seq<string>, newName: string): (r: int)
    ensures -1 <= r < |names|
    ensures r == -1 <==> newName !in names
    ensures 0 <= r ==> names[r] == newName
    ensures forall j :: 0 <= j < r ==> names[j] != newName
  {
    if names == [] then -1
    else if names[0] == newName then 0
    else
      var k := FindIndexByName(names[1..], newName);
      if k == -1 then -1 else k + 1
  }

  /** The name is unique when no existing account has exactly this name:
      the comparison is case-sensitive and nothing is trimmed. */
  function IsNameUnique(names: seq<string>, newName: string): (r: bool)
    ensures r <==> forall i :: 0 <= i < |names| ==> names[i] != newName
  {
    FindIndexByName(names, newName) == -1
  }

  /** The name check of a submit. The empty name is reported as Empty even
      when an account has the empty name: emptiness is checked first. */
  function CheckName(names: seq<string>, name: string): (e: NameError)
    ensures e == Empty <==> name == ""
    ensures e == Duplicate <==> name != "" && name in names
    ensures e == None <==> name != "" && name !in names
  {
    if name == "" then Empty
    else if !IsNameUnique(names, name) then Duplicate
    else None
  }

  /** The state after a submit. The balance error is recomputed every time; a
      name error is written only when one is found, so an error left over from
      an earlier submit survives a submit whose name is now acceptable. The
      field values themselves are not touched. */
  function AfterSubmit(f: Form, names: seq<string>, parses: string -> bool): (r: Form)
    ensures r.name == f.name && r.offbudget == f.offbudget && r.balance == f.balance
    ensures r.balanceError <==> !parses(f.balance)
    ensures f.name == "" ==> r.nameError == Empty
    ensures f.name != "" && f.name in names ==> r.nameError == Duplicate
    ensures f.name != "" && f.name !in names ==> r.nameError == f.nameError
  {
    var e := CheckName(names, f.name);
    f.(nameError := if e == None then f.nameError else e,
       balanceError := !parses(f.balance))
  }

  /** The effects of a submit: the account is created exactly when the name is
      non-empty, no account has it, and the balance parses; it is created with
      the name as it stands (trimmed only if the field was blurred), the
      balance text and the flag. */
  function SubmitOutcome(f: Form, names: seq<string>, parses: string -> bool): (o: Outcome)
    ensures o.Create? <==> f.name != "" && f.name !in names && parses(f.balance)
    ensures o.Create? ==> o == Create(f.name, f.balance, f.offbudget)
  {
    if CheckName(names, f.name) == None && parses(f.balance)
    then Create(f.name, f.balance, f.offbudget)
    else Blocked
  }

  /** Leaving the name field trims it. A name error is cleared when the name
      holds anything but white space, and is otherwise kept; blurring never
      raises an error and never looks at the other accounts. */
  function NameBlurred(f: Form): (r: Form)
    ensures r.name == Trim(f.name)
    ensures r.nameError == None || r.nameError == f.nameError
    ensures r.nameError == None <==> f.nameError == None || !AllWhiteSpace(f.name)
    ensures r.(name := f.name, nameError := f.nameError) == f
  {
    var trimmed := Trim(f.name);
    f.(name := trimmed, nameError := if trimmed != "" then None else f.nameError)
  }

  /** Leaving the balance field trims it. A balance error is cleared when the
      trimmed text parses and is otherwise kept; blurring never raises it. */
  function BalanceBlurred(f: Form, parses: string -> bool): (r: Form)
    ensures r.balance == Trim(f.balance)
    ensures r.balanceError ==> f.balanceError
    ensures r.balanceError <==> f.balanceError && !parses(Trim(f.balance))
    ensures r.(balance := f.balance, balanceError := f.balanceError) == f
  {
    var trimmed := Trim(f.balance);
    f.(balance := trimmed, balanceError := f.balanceError && !parses(trimmed))
  }

  /** The off-budget checkbox flips the flag and nothing else. */
  function OffbudgetToggled(f: Form): (r: Form)
    ensures r.offbudget != f.offbudget
    ensures r.(offbudget := f.offbudget) == f
  {
    f.(offbudget := !f.offbudget)
  }

  /** The dialog component: one field per state slot, one method per event
      handler. Each method is specified by the step function of its event. */
  class CreateLocalAccount {
    var name: string
    var offbudget: bool
    var balance: string
    var nameError: NameError
    var balanceError: bool
    /** `balance => !isNaN(parseFloat(balance))` */
    const validateBalance: string -> bool

    function State(): Form
      reads this
    {
      Form(name, offbudget, balance, nameError, balanceError)
    }

    constructor (validateBalance: string -> bool)
      ensures State() == Initial
      ensures this.validateBalance == validateBalance
    {
      this.validateBalance := validateBalance;
      name := "";
      offbudget := false;
      balance := "0";
      nameError := None;
      balanceError := false;
    }

    /** Typing in the name field replaces the name and nothing else. */
    method SetName(value: string)
      modifies this
      ensures State() == old(State()).(name := value)
    {
      name := value;
    }

    /** The name field's blur handler (the field is controlled, so the value
        it trims is the current name). */
    method BlurName()
      modifies this
      ensures State() == NameBlurred(old(State()))
    {
      var trimmed := Trim(name);
      name := trimmed;
      if trimmed != "" && nameError != None {
        nameError := None;
      }
    }

    /** Typing in the balance field replaces the balance text and nothing else. */
    method SetBalance(value: string)
      modifies this
      ensures State() == old(State()).(balance := value)
    {
      balance := value;
    }

    /** The balance field's blur handler. */
    method BlurBalance()
      modifies this
      ensures State() == BalanceBlurred(old(State()), validateBalance)
    {
      var trimmed := Trim(balance);
      balance := trimmed;
      if validateBalance(trimmed) && balanceError {
        balanceError := false;
      }
    }

    /** The off-budget checkbox's change handler. */
    method ToggleOffbudget()
      modifies this
      ensures State() == OffbudgetToggled(old(State()))
    {
      offbudget := !offbudget;
    }

    /** The form's submit handler, given the account names at the time of the
        submit. */
    method Submit(accounts: seq<string>) returns (o: Outcome)
      modifies this
      ensures State() == AfterSubmit(old(State()), accounts, validateBalance)
      ensures o == SubmitOutcome(old(State()), accounts, validateBalance)
    {
      var found := None;
      if name == "" {
        found := Empty;
        nameError := found;
      } else if !IsNameUnique(accounts, name) {
        found := Duplicate;
        nameError := found;
      }
      var badBalance := !validateBalance(balance);
      balanceError := badBalance;
      if found == None && !badBalance {
        o := Create(name, balance, offbudget);
      } else {
        o := Blocked;
      }
    }
  }

  /** The events other than submit: typing, leaving a field, the checkbox. */
  datatype Edit = ChangeName(value: string) | BlurName | ChangeBalance(value: string)
                | BlurBalance | ToggleOffbudget

  function ApplyEdit(f: Form, e: Edit, parses: string -> bool): Form {
    match e
    case ChangeName(v) => f.(name := v)
    case BlurName => NameBlurred(f)
    case ChangeBalance(v) => f.(balance := v)
    case BlurBalance => BalanceBlurred(f, parses)
    case ToggleOffbudget => OffbudgetToggled(f)
  }

  function ApplyEdits(f: Form, es: seq<Edit>, parses: string -> bool): Form
    decreases |es|
  {
    if es == [] then f else ApplyEdits(ApplyEdit(f, es[0], parses), es[1..], parses)
  }

  /** Errors are raised only by submit: however the user types, blurs and
      toggles, a name error either stays what it was or is cleared, and a
      balance error can only go away. */
  lemma {:induction false} EditsNeverRaiseErrors(f: Form, es: seq<Edit>, parses: string -> bool)
    ensures ApplyEdits(f, es, parses).nameError == None
         || ApplyEdits(f, es, parses).nameError == f.nameError
    ensures ApplyEdits(f, es, parses).balanceError ==> f.balanceError
    decreases |es|
  {
    if es != [] {
      EditsNeverRaiseErrors(ApplyEdit(f, es[0], parses), es[1..], parses);
    }
  }

  /** After a blur that leaves a non-blank name, the next submit cannot
      report Empty (it may still report Duplicate). */
  lemma BlurredNameIsNeverEmpty(f: Form, names: seq<string>, parses: string -> bool)
    requires !AllWhiteSpace(f.name)
    ensures AfterSubmit(NameBlurred(f), names, parses).nameError != Empty
  {
  }

  /** One submit can raise both errors at once: the name and balance checks
      do not short-circuit each other. */
  lemma BothErrorsInOneSubmit(f: Form, names: seq<string>, parses: string -> bool)
    requires f.name == "" && !parses(f.balance)
    ensures AfterSubmit(f, names, parses).nameError == Empty
    ensures AfterSubmit(f, names, parses).balanceError
    ensures SubmitOutcome(f, names, parses) == Blocked
  {
  }

  /** With an account "Checking", typing " Checking " and leaving the field
      trims the name to "Checking", and the submit reports Duplicate and
      creates nothing. */
  lemma DuplicateAfterTrimScenario(parses: string -> bool)
    ensures NameBlurred(Initial.(name := " Checking ")).name == "Checking"
    ensures AfterSubmit(NameBlurred(Initial.(name := " Checking ")), ["Checking"], parses).nameError
            == Duplicate
    ensures SubmitOutcome(NameBlurred(Initial.(name := " Checking ")), ["Checking"], parses)
            == Blocked
  {
    assert " Checking " == [' '] + "Checking" + [' '];
    TrimPadded([' '], "Checking", [' ']);
  }

  /** A stale name error stays on screen beside a valid name: submitting the
      fresh dialog reports Empty; typing a name and an unparseable balance
      (without leaving the name field) and submitting again is blocked by the
      balance, and the state still holds Empty although the name is now
      non-empty and unused. */
  lemma StaleNameErrorScenario(parses: string -> bool)
    requires !parses("abc")
    ensures AfterSubmit(Initial, [], parses).nameError == Empty
    ensures SubmitOutcome(Initial, [], parses) == Blocked
    ensures var typed := AfterSubmit(Initial, [], parses).(name := "Savings", balance := "abc");
            SubmitOutcome(typed, [], parses) == Blocked
            && AfterSubmit(typed, [], parses).nameError == Empty
            && AfterSubmit(typed, [], parses).balanceError
  {
  }
}

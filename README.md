# Account-creation and password-confirmation forms

A model of two form components of the Actual desktop client, reduced to
their event handlers:

- **CreateLocalAccount** (`AccountCreation`): the dialog that creates a local
  account from a name, an off-budget flag and an opening balance. A submit
  checks the name (empty, or the same as an existing account's name) and the
  balance (does it parse as a number). Only when both pass does it close the
  modal, create the account and navigate to it. Leaving a field trims it, and
  may clear that field's error but never raises one.
- **ConfirmPasswordForm** (`PasswordConfirmation`): two password entries. A
  submit calls the injected password setter when they agree and reports
  `password-match` when they differ. A `loading` flag makes every submit a
  no-op while a call is pending.
- `JsString` models JavaScript's `String.prototype.trim`, which both blur
  handlers use.

Each component is a class whose fields are the component's state slots, with
one method per event handler. Every method is specified by a pure step
function on a `Form` datatype. The step functions state what each event
means. Lemmas about runs of events state what the forms promise over time:
only a submit raises an error, at most one password call is pending, a
rejected call locks the password form, and the "show password" box never
affects behaviour.

Things the code does that a reader might not expect (the model follows the
code):

- The empty-name check is `!name`. A name of spaces passes it unless the field
  was blurred first, since only the blur trims.
- `createAccount` receives the current name, which is trimmed only if the
  field was blurred since the last edit.
- A submit writes the name error only when it finds one. An error left from
  an earlier submit stays set after a submit whose name is now fine.
- The balance is validated with `parseFloat`, while the value handed to
  `createAccount` comes from `toRelaxedNumber`.
- The password form clears `loading` only when the setter's promise resolves.
  There is no `finally`, so a rejected call leaves the form ignoring every
  later submit.
- The "show password" handler copies the checkbox's `checked` value. It does
  not flip the flag.

## Model

| member | source | states |
|---|---|---|
| `JsString.SkipLeading` | packages/desktop-client/src/components/modals/CreateLocalAccount.tsx:89 | scanning forward from a position, the result is the first position that is not white space (or the end); everything skipped is white space |
| `JsString.SkipTrailing` | packages/desktop-client/src/components/modals/CreateLocalAccount.tsx:168 | scanning backward, not below a bound, the result is the end of the last character that is not white space (or the bound); everything skipped is white space |
| `JsString.LeadLength` | packages/desktop-client/src/components/modals/CreateLocalAccount.tsx:89 | the length of the white space a string starts with: all of it is white space and the next character, if any, is not |
| `JsString.Trim` | packages/desktop-client/src/components/modals/CreateLocalAccount.tsx:89 | `trim()` returns the part of the input between its leading and trailing white space: a slice with only white space before and after it, no white space at either end; it is empty exactly when the input is all white space, is empty exactly when the input is all white space, and leaves an already-trimmed string unchanged |
| `JsString.TrimPadded` | packages/desktop-client/src/components/modals/CreateLocalAccount.tsx:89 | for any all-white-space `p` and `q` and any already-trimmed `s`, `(p + s + q).trim() == s` |
| `AccountCreation.FindIndexByName` | packages/desktop-client/src/components/modals/CreateLocalAccount.tsx:48 | `findIndex` returns -1 exactly when no account has the name, and otherwise the first position holding it |
| `AccountCreation.IsNameUnique` | packages/desktop-client/src/components/modals/CreateLocalAccount.tsx:47-49 | a name is unique iff no account name equals it exactly (case-sensitive, untrimmed) |
| `AccountCreation.CheckName` | packages/desktop-client/src/components/modals/CreateLocalAccount.tsx:59-66 | Empty iff the name is ""; Duplicate iff it is non-empty and some account has it; None otherwise; Empty takes precedence over Duplicate |
| `AccountCreation.AfterSubmit` | packages/desktop-client/src/components/modals/CreateLocalAccount.tsx:56-70 | a submit always sets the balance error to "does not parse", writes Empty or Duplicate when found, keeps a stale name error otherwise, and leaves the field values alone |
| `AccountCreation.SubmitOutcome` | packages/desktop-client/src/components/modals/CreateLocalAccount.tsx:71-79 | the account is created iff the name is non-empty, unused and the balance parses, with the current name, balance text and off-budget flag; otherwise no effect fires |
| `AccountCreation.NameBlurred` | packages/desktop-client/src/components/modals/CreateLocalAccount.tsx:88-94 | name blur trims the name; the name error is cleared iff the name is not all white space, is never raised, and nothing else changes |
| `AccountCreation.BalanceBlurred` | packages/desktop-client/src/components/modals/CreateLocalAccount.tsx:167-173 | balance blur trims the balance; the balance error is cleared iff the trimmed text parses, is never raised, and nothing else changes |
| `AccountCreation.OffbudgetToggled` | packages/desktop-client/src/components/modals/CreateLocalAccount.tsx:126 | the checkbox flips the off-budget flag and changes nothing else |
| `AccountCreation.CreateLocalAccount.constructor` | packages/desktop-client/src/components/modals/CreateLocalAccount.tsx:38-43 | a fresh dialog has name "", off-budget false, balance "0", no name error and no balance error |
| `AccountCreation.CreateLocalAccount.SetName` | packages/desktop-client/src/components/modals/CreateLocalAccount.tsx:87 | typing replaces the name and nothing else |
| `AccountCreation.CreateLocalAccount.BlurName` | packages/desktop-client/src/components/modals/CreateLocalAccount.tsx:88-94 | the handler's new state is the name-blur step of the old one |
| `AccountCreation.CreateLocalAccount.SetBalance` | packages/desktop-client/src/components/modals/CreateLocalAccount.tsx:166 | typing replaces the balance text and nothing else |
| `AccountCreation.CreateLocalAccount.BlurBalance` | packages/desktop-client/src/components/modals/CreateLocalAccount.tsx:167-173 | the handler's new state is the balance-blur step of the old one, with the dialog's own balance check |
| `AccountCreation.CreateLocalAccount.ToggleOffbudget` | packages/desktop-client/src/components/modals/CreateLocalAccount.tsx:122-127 | the handler's new state is the toggled one |
| `AccountCreation.CreateLocalAccount.Submit` | packages/desktop-client/src/components/modals/CreateLocalAccount.tsx:56-80 | the handler's new state and effects are those of the submit step for the account names it is given |
| `AccountCreation.EditsNeverRaiseErrors` | packages/desktop-client/src/components/modals/CreateLocalAccount.tsx:87-173 | over any run of typing, blurring and toggling, the name error stays or is cleared and the balance error can only disappear |
| `AccountCreation.BlurredNameIsNeverEmpty` | packages/desktop-client/src/components/modals/CreateLocalAccount.tsx:60-94 | after blurring a name that is not all white space, a submit never reports Empty |
| `AccountCreation.BothErrorsInOneSubmit` | packages/desktop-client/src/components/modals/CreateLocalAccount.tsx:59-71 | an empty name with an unparseable balance raises both errors in one submit and creates nothing |
| `AccountCreation.DuplicateAfterTrimScenario` | packages/desktop-client/src/components/modals/CreateLocalAccount.tsx:56-94 | with an account "Checking", blurring " Checking " gives "Checking", and the submit reports Duplicate and creates nothing |
| `AccountCreation.StaleNameErrorScenario` | packages/desktop-client/src/components/modals/CreateLocalAccount.tsx:59-79 | a fresh dialog's submit reports Empty; after typing a name (no blur) and an unparseable balance, the next submit is blocked and still shows Empty beside the non-empty, unused name |
| `PasswordConfirmation.Submitted` | packages/desktop-client/src/components/manager/subscribe/ConfirmPasswordForm.tsx:17-29 | a submit is ignored iff loading; otherwise it calls the setter with the first password iff the entries are equal (both empty included), and reports "password-match" otherwise |
| `PasswordConfirmation.AfterSubmit` | packages/desktop-client/src/components/manager/subscribe/ConfirmPasswordForm.tsx:17-24 | loading is raised exactly when a call starts; the passwords never change; an ignored or mismatched submit changes nothing |
| `PasswordConfirmation.AfterCallResolved` | packages/desktop-client/src/components/manager/subscribe/ConfirmPasswordForm.tsx:25 | a normally completed call lowers loading and keeps the entries |
| `PasswordConfirmation.ConfirmPasswordForm.constructor` | packages/desktop-client/src/components/manager/subscribe/ConfirmPasswordForm.tsx:12-15 | a fresh form has both passwords "", show-password off and loading off |
| `PasswordConfirmation.ConfirmPasswordForm.SetPassword1` | packages/desktop-client/src/components/manager/subscribe/ConfirmPasswordForm.tsx:49 | typing replaces the first password and nothing else |
| `PasswordConfirmation.ConfirmPasswordForm.SetPassword2` | packages/desktop-client/src/components/manager/subscribe/ConfirmPasswordForm.tsx:55 | typing replaces the confirmation and nothing else |
| `PasswordConfirmation.ConfirmPasswordForm.OnShowPassword` | packages/desktop-client/src/components/manager/subscribe/ConfirmPasswordForm.tsx:31-33 | the checkbox handler sets show-password to the box's state and changes nothing else |
| `PasswordConfirmation.ConfirmPasswordForm.SubmitStart` | packages/desktop-client/src/components/manager/subscribe/ConfirmPasswordForm.tsx:17-24 | the handler up to its await has the effect and new state of the submit step |
| `PasswordConfirmation.ConfirmPasswordForm.SetPasswordCompleted` | packages/desktop-client/src/components/manager/subscribe/ConfirmPasswordForm.tsx:25 | the handler after a resolved await has the new state of the completion step |
| `PasswordConfirmation.ConfirmPasswordForm.OnTrigger` | packages/desktop-client/src/components/manager/subscribe/ConfirmPasswordForm.tsx:50-78 | Enter in either field and the OK button have the same effect and new state as a submit |
| `PasswordConfirmation.GuardedIsPreserved` | packages/desktop-client/src/components/manager/subscribe/ConfirmPasswordForm.tsx:17-25 | every run of events keeps "at most one call pending, and loading while one is" |
| `PasswordConfirmation.AtMostOneCallInFlight` | packages/desktop-client/src/components/manager/subscribe/ConfirmPasswordForm.tsx:17-25 | from a fresh form, no run of events ever has two setter calls pending |
| `PasswordConfirmation.SubmitWhilePendingIsIgnored` | packages/desktop-client/src/components/manager/subscribe/ConfirmPasswordForm.tsx:18-20 | while a call is pending, a submit from any trigger makes no call, reports nothing and changes nothing |
| `PasswordConfirmation.RejectedCallLocksForm` | packages/desktop-client/src/components/manager/subscribe/ConfirmPasswordForm.tsx:17-25 | with loading up and no call pending (after a rejection), no run of events lowers loading, makes a call or reports an error |
| `PasswordConfirmation.RejectionScenario` | packages/desktop-client/src/components/manager/subscribe/ConfirmPasswordForm.tsx:22-25 | submitting two empty entries calls the setter with "", and a rejection then leaves loading up with nothing pending |
| `PasswordConfirmation.ShowPasswordIsIrrelevant` | packages/desktop-client/src/components/manager/subscribe/ConfirmPasswordForm.tsx:31-54 | removing every show-password change from a run changes nothing in the final state except that flag: same passwords, loading, pending calls and log |

## Left out

- Rendering, styling, the error texts, the external link and translation
  (`Modal`, `View`, `FormError`, `Trans`, `useTranslation`): presentation only.
  The show-password flag only picks the input type (text or password); the
  model shows that it affects no behaviour.
- `parseFloat` and `isNaN`: floating-point parsing. The balance check is the
  function value `validateBalance` (`parses` in the step functions), and
  nothing is assumed about it.
- `toRelaxedNumber`: a numeric helper outside these files. `Create` carries the
  balance text that would be converted, not the number.
- The effects of `closeModal`, `createAccount` and `navigate`, and the account
  id `createAccount` returns: `Create` stands for the ordered triple
  close modal, create account, navigate to `/accounts/<id>`. The path is not
  modelled, and neither is a rejected `createAccount`, which skips only the
  navigation.
- The end of the dialog after `Create`: in the source `closeModal` removes
  the dialog, but the model's class and step functions keep accepting events
  after a `Create`, and a second submit would create again. Nothing the model
  states concerns events after a `Create`.
- The Back button (`modalProps.onBack`): it changes no form state.
- `useAccounts`: the account list is reduced to its names and passed to
  `Submit` as it stands when the submit happens.
- `onSetPassword` and `onError`: they are effect tags (`CallSetPassword`,
  `ReportError`) in a submit's result and in a session's log. Their behaviour
  belongs to the caller.
- React's batching, re-rendering and stale closures: every handler is one
  atomic step on the current state. The `await` in the password submit is a
  separate completion event (`CallResolved`, `CallRejected`).
- Unicode: trim works on UTF-16 code units, and the model works on Dafny
  characters. Every character trim removes is a single code unit, so the two
  agree.

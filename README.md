# Two-factor login checkpoint

A model of the device checkpoint of the panel's login flow
(`resources/scripts/components/auth/LoginCheckpointContainer.tsx`). A user who has
passed the password step arrives at the checkpoint view carrying a pending-login
token in the navigation state. The view

- refuses to render without a token and replaces the current history entry with
  `/auth/login`;
- holds a form with a single `code` field that starts empty and is validated by
  two rules (required, exactly six characters);
- on submit clears the flash messages, then issues one verification call with the
  token (or `''`) and the code as typed;
- when the call succeeds with `complete` set, navigates the whole page to the
  server's intended location or `/` and stays "submitting"; when it succeeds
  without `complete`, re-enables the form silently; when it fails, re-enables the
  form and publishes one error flash with the human-readable message.

Modules:

- `Wrappers` (`wrappers.dfy`): `Option`.
- `Validation` (`validation.dfy`): the form values, the initial values and the
  validation schema, as pure functions.
- `Guard` (`guard.dfy`): the guard decision, the `token || ''` fallback, and the
  browser history as a class whose `Replace` rewrites the current entry.
- `Submission` (`submission.dfy`): the submission controller as a pure state
  machine (`Step`, `Run`) over a state that holds the field, the `submitting`
  flag, whether a call is in flight, the flash store's content, the navigation
  target and an ordered log of outward effects (clear, verification call, error
  flash, navigation). The invariant `Inv` describes every reachable state and the
  lemmas about runs state the controller's guarantees.
- `Checkpoint` (`checkpoint.dfy`): the mounted view as objects. `FlashStore` is
  the global flash store; `CheckpointForm` holds the form's state and its
  methods are the submit handler and the two promise continuations, each proved
  to perform exactly one `Step` of the state machine and to keep `Inv`; `Mount`
  is the guarded entry point.

The asynchronous verification call is split in two: `Submit` issues it (it is
recorded as a `Verify` effect), and `OnResolve` / `OnReject` are the events of its
settlement, which the environment delivers at most once per call.

## Model

| member | source | states |
|---|---|---|
| `Validation.Validate` | resources/scripts/components/auth/LoginCheckpointContainer.tsx:94-97 | a code passes exactly when it has six characters; the empty code breaks the required rule, with "An authentication code must be provided."; any other length breaks the length rule, with "Authentication code must be 6 digits in length." |
| `Validation.LengthIsTheOnlyCriterion` | resources/scripts/components/auth/LoginCheckpointContainer.tsx:95-96 | codes of equal length get the same verdict: the characters, digits or not, are never inspected |
| `Validation.InitialValues` | resources/scripts/components/auth/LoginCheckpointContainer.tsx:90-92 | the form starts with a code that the required rule rejects (the empty code) |
| `Guard.GuardDecision` | resources/scripts/components/auth/LoginCheckpointContainer.tsx:103-109 | a missing or empty token redirects to `/auth/login`; any non-empty token renders the form with that token |
| `Guard.TokenOrEmpty` | resources/scripts/components/auth/LoginCheckpointContainer.tsx:73 | the token sent is the one the guard let through, and is empty exactly when the guard would have redirected |
| `Guard.History.Replace` | resources/scripts/components/auth/LoginCheckpointContainer.tsx:104 | the current history entry is replaced, not pushed: the history keeps its length |
| `Submission.Destination` | resources/scripts/components/auth/LoginCheckpointContainer.tsx:77 | the destination is never empty; it is the server's intended location when that is present and non-empty, and `/` otherwise |
| `Submission.Initial` | resources/scripts/components/auth/LoginCheckpointContainer.tsx:90-92 | the mount state: the code is one the required rule rejects, nothing is submitting or in flight, there is no navigation and no effect, and the flash store is as it was found |
| `Submission.AttemptOf` | resources/scripts/components/auth/LoginCheckpointContainer.tsx:48 | a submit press is ignored exactly while submitting; otherwise it is sent exactly when the code has six characters, and refused with the rule the code breaks |
| `Submission.Step` | resources/scripts/components/auth/LoginCheckpointContainer.tsx:70-88 | one event of the controller: the effect log only grows, by the clear and the call on an accepted submit and by one entry on a settlement; typing sets the code and touches neither the log nor the submitting flag; a navigation starts only on a completed settlement of a call in flight |
| `Submission.Calls` | resources/scripts/components/auth/LoginCheckpointContainer.tsx:73 | the (token, code) pairs of the verification calls in an effect log: every listed pair was a call, and every call is listed |
| `Submission.InitialInv` | resources/scripts/components/auth/LoginCheckpointContainer.tsx:90-92 | a freshly mounted form (empty code, not submitting, no effects) satisfies the controller invariant |
| `Submission.StepInv` | resources/scripts/components/auth/LoginCheckpointContainer.tsx:70-88 | every event keeps the invariant: calls are preceded by a clear and carry the token and a validated code, an error flash or navigation follows a call, a navigation is last, `submitting` holds exactly while a call is in flight or after navigation, and the flash store holds what the log says |
| `Submission.RunInv` | resources/scripts/components/auth/LoginCheckpointContainer.tsx:70-88 | every sequence of events keeps the invariant |
| `Submission.ReachedInv` | resources/scripts/components/auth/LoginCheckpointContainer.tsx:70-92 | every state reachable from a fresh mount satisfies the invariant |
| `Submission.CallsAreValidated` | resources/scripts/components/auth/LoginCheckpointContainer.tsx:70-97 | every verification call ever issued carries the navigation token (or `''`) and a six-character code; no empty or wrong-length code reaches the server; behind the guard every call carries exactly the non-empty navigation token |
| `Submission.ClearOnlyBeforeCall` | resources/scripts/components/auth/LoginCheckpointContainer.tsx:71-73 | a clear of the flashes happens exactly when a verification call follows it immediately: at the start of each accepted submission and never mid-flight |
| `Submission.NoSecondCallInFlight` | resources/scripts/components/auth/LoginCheckpointContainer.tsx:45-49 | while a call is in flight, pressing submit changes nothing, so no second call starts |
| `Submission.AtMostOneFlash` | resources/scripts/components/auth/LoginCheckpointContainer.tsx:71-87 | once a submission was accepted the flash store holds at most one message, and holds one exactly when the last event of a call was its failure, namely that failure's message |
| `Submission.IdleIffSettled` | resources/scripts/components/auth/LoginCheckpointContainer.tsx:74-87 | the form is re-enabled exactly when no call is in flight and no navigation has started |
| `Submission.NavigationIsFinal` | resources/scripts/components/auth/LoginCheckpointContainer.tsx:75-78 | after a completed login navigates away, no further call, clear, flash or navigation happens and the form stays disabled |
| `Checkpoint.FlashStore.Clear` | resources/scripts/components/auth/LoginCheckpointContainer.tsx:71 | clearing leaves no flash message |
| `Checkpoint.FlashStore.AddError` | resources/scripts/components/auth/LoginCheckpointContainer.tsx:86 | adding an error appends exactly that message |
| `Checkpoint.CheckpointForm.constructor` | resources/scripts/components/auth/LoginCheckpointContainer.tsx:90-92 | a form, mounted only with a token the guard lets through, starts with the empty code, not submitting, with no effects, and satisfies the invariant |
| `Checkpoint.CheckpointForm.Edit` | resources/scripts/components/auth/LoginCheckpointContainer.tsx:35-42 | typing changes only the code, at any time, and causes no effect |
| `Checkpoint.CheckpointForm.Submit` | resources/scripts/components/auth/LoginCheckpointContainer.tsx:70-73 | disabled while submitting; an invalid code is reported with its rule and changes nothing; otherwise the form becomes submitting, the flashes are cleared and then exactly one call with the token (or `''`) and the code verbatim is appended |
| `Checkpoint.CheckpointForm.OnResolve` | resources/scripts/components/auth/LoginCheckpointContainer.tsx:74-82 | `complete`: navigation to `Destination(intended)`, still submitting, flashes unchanged; not `complete`: only `submitting` becomes false, with no flash and no navigation |
| `Checkpoint.CheckpointForm.OnReject` | resources/scripts/components/auth/LoginCheckpointContainer.tsx:83-87 | `submitting` becomes false, no navigation, and the flash store then holds exactly the one error message |
| `Checkpoint.Mount` | resources/scripts/components/auth/LoginCheckpointContainer.tsx:100-116 | without a usable token the current history entry becomes `/auth/login` and no form exists; with one a fresh form with that token is rendered and the history is unchanged; the flash store is untouched either way |

## Left out

- The JSX rendering (layout, field, spinner, the "Return to Login" link, class names): opaque UI. Only the disabled state of the submit button is modelled, as the `Disabled` outcome of `Submit`.
- The verification HTTP request and `httpErrorToHuman`: foreign calls. A call is recorded as a `Verify` effect; its outcome and the human-readable message arrive as the arguments of `OnResolve` and `OnReject`.
- Promise scheduling: a settlement is an event method that the environment invokes at most once per issued call (hence `requires inFlight`); no concurrency is modelled.
- Checkpoint.CheckpointForm.OnResolve: the navigation is assumed to succeed. In the source the assignment to `window.location` at line 77 runs inside the `.then` callback, so if it throws (for example on an `intended` that is not a valid URL) the `.catch` at lines 83-87 runs: the form is re-enabled and one error flash is added. The model does not have this path; after a navigation nothing else happens.
- Validation.Validate: the length of a code is counted in Unicode scalar values (Dafny characters), while the schema counts UTF-16 code units. A code holding a character outside the Basic Multilingual Plane gets a different verdict (`"12345😀"` passes here and is refused by the source). The field is a number input, which does not produce such characters.
- The browser navigation itself: `window.location` and `history.replace` are recorded only as their target.
- The `console.log` and `console.error` calls (lines 72, 84): logging only. Line 72 reads `location.state.token` without optional chaining; it cannot throw because the form exists only behind the guard, which the form's constructor requires.
- The form library's and the schema library's internals. Only the two declared rules are modelled, and only at submission. Validation on change or on blur, and when a field error is displayed, are not modelled. For the empty code both rules fail; the model reports the required rule, the first one declared.
- The input is declared with type `number`. The conversion the form library applies to such input, which may change what is typed (for example a leading zero), is not part of this model: the code is the string as typed.
- The flash store's other users: the model assumes no other component writes to the store while the view is mounted.

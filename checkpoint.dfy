/**
 * The mounted checkpoint view: the flash store it writes to, the form object whose
 * methods are the submission handler and its two promise continuations, and the
 * guarded entry point that creates the form or redirects.
 */
module Checkpoint {
  import opened Wrappers
  import opened Validation
  import opened Guard
  import opened Submission

  /** The global flash-notification store, seen through the two operations the view uses. */
  class FlashStore {
    var messages: seq<string>

    constructor (initial: seq<string>)
      ensures messages == initial
    {
      messages := initial;
    }

    method Clear()
      modifies this
      ensures messages == []
    {
      messages := [];
    }

    method AddError(message: string)
      modifies this
      ensures messages == old(messages) + [message]
    {
      messages := messages + [message];
    }
  }

  /** One mounted checkpoint form. */
  class CheckpointForm {
    const token: Option<string>       // the navigation-state token the view was entered with
    const flashStore: FlashStore
    ghost const initialFlashes: seq<string>
    var code: string
    var submitting: bool
    var inFlight: bool                // a verification call has been issued and has not settled
    var navigatedTo: Option<string>
    var effects: seq<Effect>

    function AsState(): State
      reads this, flashStore
    {
      Submission.State(code, submitting, inFlight, flashStore.messages, navigatedTo, effects)
    }

    ghost predicate Valid()
      reads this, flashStore
    {
      Inv(token, initialFlashes, AsState())
    }

    /** Mounting behind the guard: the code field starts empty and nothing is submitting. */
    constructor (token: Option<string>, store: FlashStore)
      requires GuardDecision(token).Render?
      ensures this.token == token && flashStore == store
      ensures AsState() == Initial(store.messages)
      ensures Valid()
    {
      this.token := token;
      flashStore := store;
      initialFlashes := store.messages;
      code := InitialValues().code;
      submitting, inFlight := false, false;
      navigatedTo := None;
      effects := [];
      new;
      InitialInv(token, store.messages);
    }

    /** The user types into the field; allowed at any time. */
    method Edit(newCode: string)
      requires Valid()
      modifies this
      ensures Valid()
      ensures AsState() == Step(token, old(AsState()), Submission.Edit(newCode))
      ensures code == newCode && effects == old(effects) && submitting == old(submitting)
    {
      code := newCode;
    }

    /**
     * The user submits. With the button disabled nothing happens; an invalid code
     * is reported beside the field and nothing else happens; otherwise the form
     * becomes submitting, all flashes are cleared and then exactly one
     * verification call is issued with the token and the code as typed.
     */
    method Submit() returns (outcome: Attempt)
      requires Valid()
      modifies this, flashStore
      ensures Valid()
      ensures AsState() == Step(token, old(AsState()), SubmitPressed)
      ensures outcome == Disabled <==> old(submitting)
      ensures outcome.Invalid? <==> !old(submitting) && Validate(old(code)).Some?
      ensures outcome.Invalid? ==> Some(outcome.kind) == Validate(old(code))
      ensures outcome != Sent ==> AsState() == old(AsState())
      ensures outcome == Sent ==>
        submitting && inFlight && flashStore.messages == [] && navigatedTo == old(navigatedTo) &&
        effects == old(effects) + [ClearFlashes, Verify(TokenOrEmpty(token), old(code))]
    {
      if submitting {
        return Disabled;
      }
      var error := Validate(code);
      if error.Some? {
        return Invalid(error.value);
      }
      submitting := true;
      flashStore.Clear();
      effects := effects + [ClearFlashes];
      effects := effects + [Verify(TokenOrEmpty(token), code)];
      inFlight := true;
      outcome := Sent;
      StepInv(token, initialFlashes, old(AsState()), SubmitPressed);
    }

    /**
     * The verification call succeeded. A completed login navigates to the
     * intended destination (or the root) and leaves the form submitting; an
     * incomplete one only re-enables the form, with no flash and no navigation.
     */
    method OnResolve(complete: bool, intended: Option<string>)
      requires Valid() && inFlight
      modifies this
      ensures Valid()
      ensures AsState() == Step(token, old(AsState()), Resolved(complete, intended))
      ensures !inFlight && flashStore.messages == old(flashStore.messages)
      ensures complete ==>
        submitting && navigatedTo == Some(Destination(intended)) &&
        effects == old(effects) + [Navigate(Destination(intended))]
      ensures !complete ==> !submitting && navigatedTo == old(navigatedTo) && effects == old(effects)
    {
      inFlight := false;
      if complete {
        var target := Destination(intended);
        navigatedTo := Some(target);
        effects := effects + [Navigate(target)];
        StepInv(token, initialFlashes, old(AsState()), Resolved(complete, intended));
        return;
      }
      submitting := false;
      StepInv(token, initialFlashes, old(AsState()), Resolved(complete, intended));
    }

    /**
     * The verification call failed: the form is re-enabled and exactly one
     * error flash carrying the human-readable message is published.
     */
    method OnReject(message: string)
      requires Valid() && inFlight
      modifies this, flashStore
      ensures Valid()
      ensures AsState() == Step(token, old(AsState()), Failed(message))
      ensures !inFlight && !submitting && navigatedTo == old(navigatedTo)
      ensures flashStore.messages == old(flashStore.messages) + [message] == [message]
      ensures effects == old(effects) + [AddError(message)]
    {
      inFlight := false;
      submitting := false;
      flashStore.AddError(message);
      effects := effects + [AddError(message)];
      StepInv(token, initialFlashes, old(AsState()), Failed(message));
    }
  }

  /**
   * Activating the view. Without a usable token the current history entry is
   * replaced by the login page and nothing is rendered; otherwise a fresh form
   * is rendered and the history is left alone. The flash store is not touched
   * on either path.
   */
  method Mount(history: History, token: Option<string>, store: FlashStore) returns (form: CheckpointForm?)
    requires history.Valid()
    modifies history
    ensures history.Valid()
    ensures form == null <==> GuardDecision(token).Redirect?
    ensures form == null ==> history.entries == old(history.entries)[..|old(history.entries)| - 1] + [LoginPath]
    ensures form != null ==>
      fresh(form) && form.Valid() && form.token == token && form.flashStore == store &&
      form.AsState() == Initial(store.messages) && history.entries == old(history.entries)
  {
    if GuardDecision(token).Redirect? {
      history.Replace(LoginPath);
      return null;
    }
    form := new CheckpointForm(token, store);
  }
}

/**
 * The submission controller as a pure state machine: one state, the events that
 * drive it (typing, pressing the submit button, the verification call settling)
 * and the ordered log of outward effects it produces.
 */
module Submission {
  import opened Wrappers
  import opened Validation
  import opened Guard

  /** The destination of a completed login when the server names none. */
  const RootPath: string := "/"

  /** Outward effects, in the order they happen. */
  datatype Effect =
    | ClearFlashes                          // every flash message is dismissed
    | Verify(token: string, code: string)   // one verification call is issued
    | AddError(message: string)             // one error flash is published
    | Navigate(target: string)              // a full-page navigation is started

  /** The controller's state; `flashes` is the content of the flash store. */
  datatype State = State(
    code: string,
    submitting: bool,
    inFlight: bool,
    flashes: seq<string>,
    navigatedTo: Option<string>,
    effects: seq<Effect>)

  /** What happens to the view. */
  datatype Event =
    | Edit(code: string)                                  // the user changes the field
    | SubmitPressed                                       // the user submits the form
    | Resolved(complete: bool, intended: Option<string>)  // the verification call succeeds
    | Failed(message: string)                             // it fails; message is the human-readable error

  /** How a press of the submit button is handled. */
  datatype Attempt = Disabled | Invalid(kind: ErrorKind) | Sent

  /** The post-login destination: the server's intended location unless it is absent or empty. */
  function Destination(intended: Option<string>): (d: string)
    ensures d != []
    ensures d == RootPath || intended == Some(d)
    ensures intended.Some? && intended.value != [] ==> d == intended.value
  {
    if intended.Some? && intended.value != [] then intended.value else RootPath
  }

  /** A freshly mounted form over a flash store that holds `flashes`. */
  function Initial(flashes: seq<string>): (s: State)
    ensures Validate(s.code) == Some(RequiredField)
    ensures !s.submitting && !s.inFlight && s.navigatedTo.None? && s.effects == []
    ensures s.flashes == flashes
  {
    State(InitialValues().code, false, false, flashes, None, [])
  }

  /** The button is disabled while submitting; otherwise the code is validated first. */
  function AttemptOf(s: State): (a: Attempt)
    ensures a == Disabled <==> s.submitting
    ensures a == Sent <==> !s.submitting && |s.code| == CodeLength
    ensures a.Invalid? ==> Validate(s.code) == Some(a.kind)
  {
    if s.submitting then Disabled
    else match Validate(s.code)
      case Some(kind) => Invalid(kind)
      case None => Sent
  }

  /**
   * One transition. A settlement with no call in flight cannot occur (no promise
   * exists then) and leaves the state alone.
   */
  function Step(token: Option<string>, s: State, ev: Event): (r: State)
    ensures s.effects <= r.effects
    ensures ev.Edit? ==> r.code == ev.code && r.effects == s.effects && r.submitting == s.submitting
    ensures !ev.Edit? ==> r.code == s.code
    ensures r.effects != s.effects ==>
      (ev.SubmitPressed? && |r.effects| == |s.effects| + 2) || (!ev.SubmitPressed? && |r.effects| == |s.effects| + 1)
    ensures r.navigatedTo != s.navigatedTo ==> ev.Resolved? && ev.complete && s.inFlight
  {
    match ev
    case Edit(c) => s.(code := c)
    case SubmitPressed =>
      if AttemptOf(s).Sent? then
        s.(submitting := true, inFlight := true, flashes := [],
           effects := s.effects + [ClearFlashes, Verify(TokenOrEmpty(token), s.code)])
      else s
    case Resolved(complete, intended) =>
      if !s.inFlight then s
      else if complete then
        s.(inFlight := false, navigatedTo := Some(Destination(intended)),
           effects := s.effects + [Navigate(Destination(intended))])
      else s.(inFlight := false, submitting := false)
    case Failed(message) =>
      if !s.inFlight then s
      else s.(inFlight := false, submitting := false, flashes := s.flashes + [message],
              effects := s.effects + [AddError(message)])
  }

  /** The state after a sequence of events. */
  function Run(token: Option<string>, s: State, evs: seq<Event>): State
    decreases |evs|
  {
    if evs == [] then s else Run(token, Step(token, s, evs[0]), evs[1..])
  }

  function Last(es: seq<Effect>): Effect
    requires es != []
  {
    es[|es| - 1]
  }

  /** The verification calls in an effect log, as (token, code) pairs. */
  function Calls(es: seq<Effect>): (r: seq<(string, string)>)
    ensures |r| <= |es|
    ensures forall c :: c in r ==> Verify(c.0, c.1) in es
    ensures forall i :: 0 <= i < |es| && es[i].Verify? ==> (es[i].token, es[i].code) in r
    decreases |es|
  {
    if es == [] then []
    else
      var rest := Calls(es[1..]);
      assert forall i :: 1 <= i < |es| ==> es[i] == es[1..][i - 1];
      match es[0]
      case Verify(t, c) => [(t, c)] + rest
      case _ => rest
  }

  /**
   * The shape every effect log has: each clear is immediately followed by a
   * verification call, each call is immediately preceded by a clear and carries
   * the view's token and a code that passed validation, each error flash or
   * navigation immediately follows a call, and a navigation is always last.
   */
  ghost predicate LogShape(token: string, es: seq<Effect>) {
    (forall i :: 0 <= i < |es| && es[i].ClearFlashes? ==> i + 1 < |es| && es[i + 1].Verify?) &&
    (forall i :: 0 <= i < |es| && es[i].Verify? ==>
       0 < i && es[i - 1].ClearFlashes? && es[i].token == token && Validate(es[i].code).None?) &&
    (forall i :: 0 <= i < |es| && (es[i].AddError? || es[i].Navigate?) ==> 0 < i && es[i - 1].Verify?) &&
    (forall i :: 0 <= i < |es| && es[i].Navigate? ==> i == |es| - 1 && es[i].target != [])
  }

  /** What the flash store holds, given what it held at mount and the effects since. */
  function ExpectedFlashes(initial: seq<string>, es: seq<Effect>): seq<string> {
    if es == [] then initial
    else match Last(es)
      case AddError(m) => [m]
      case _ => []
  }

  /** The invariant of every reachable state of a view mounted with `token` over a store holding `initial`. */
  ghost predicate Inv(token: Option<string>, initial: seq<string>, s: State) {
    LogShape(TokenOrEmpty(token), s.effects) &&
    (s.submitting <==> s.inFlight || s.navigatedTo.Some?) &&
    (s.inFlight ==> s.navigatedTo.None? && s.effects != [] && Last(s.effects).Verify?) &&
    (s.navigatedTo.Some? <==> s.effects != [] && Last(s.effects).Navigate?) &&
    (s.navigatedTo.Some? ==> s.navigatedTo.value == Last(s.effects).target) &&
    s.flashes == ExpectedFlashes(initial, s.effects)
  }

  lemma InitialInv(token: Option<string>, initial: seq<string>)
    ensures Inv(token, initial, Initial(initial))
  {
  }

  lemma LogShapeAppendCall(token: string, es: seq<Effect>, code: string)
    requires LogShape(token, es)
    requires es == [] || !Last(es).Navigate?
    requires Validate(code).None?
    ensures LogShape(token, es + [ClearFlashes, Verify(token, code)])
  {
    var es' := es + [ClearFlashes, Verify(token, code)];
    assert forall i :: 0 <= i < |es| ==> es'[i] == es[i];
  }

  lemma LogShapeAppendOutcome(token: string, es: seq<Effect>, e: Effect)
    requires LogShape(token, es)
    requires es != [] && Last(es).Verify?
    requires e.AddError? || (e.Navigate? && e.target != [])
    ensures LogShape(token, es + [e])
  {
    var es' := es + [e];
    assert forall i :: 0 <= i < |es| ==> es'[i] == es[i];
  }

  /** Every transition keeps the invariant. */
  lemma StepInv(token: Option<string>, initial: seq<string>, s: State, ev: Event)
    requires Inv(token, initial, s)
    ensures Inv(token, initial, Step(token, s, ev))
  {
    var s' := Step(token, s, ev);
    match ev
    case Edit(_) =>
    case SubmitPressed =>
      if AttemptOf(s).Sent? {
        LogShapeAppendCall(TokenOrEmpty(token), s.effects, s.code);
        assert Last(s'.effects) == Verify(TokenOrEmpty(token), s.code);
      }
    case Resolved(complete, intended) =>
      if s.inFlight && complete {
        LogShapeAppendOutcome(TokenOrEmpty(token), s.effects, Navigate(Destination(intended)));
      }
    case Failed(message) =>
      if s.inFlight {
        LogShapeAppendOutcome(TokenOrEmpty(token), s.effects, AddError(message));
        assert s.flashes == [];
      }
  }

  /** Every run keeps the invariant. */
  lemma {:induction false} RunInv(token: Option<string>, initial: seq<string>, s: State, evs: seq<Event>)
    requires Inv(token, initial, s)
    ensures Inv(token, initial, Run(token, s, evs))
    decreases |evs|
  {
    if evs != [] {
      StepInv(token, initial, s, evs[0]);
      RunInv(token, initial, Step(token, s, evs[0]), evs[1..]);
    }
  }

  /** The state reached from a fresh mount by a sequence of events. */
  function Reached(token: Option<string>, initial: seq<string>, evs: seq<Event>): State {
    Run(token, Initial(initial), evs)
  }

  lemma ReachedInv(token: Option<string>, initial: seq<string>, evs: seq<Event>)
    ensures Inv(token, initial, Reached(token, initial, evs))
  {
    InitialInv(token, initial);
    RunInv(token, initial, Initial(initial), evs);
  }

  /**
   * Every verification call ever issued carries the view's token (or the empty
   * string without one) and a code of exactly six characters: no empty code and
   * no code of another length reaches the server.
   */
  lemma CallsAreValidated(token: Option<string>, initial: seq<string>, evs: seq<Event>)
    ensures forall c :: c in Calls(Reached(token, initial, evs).effects) ==>
      c.0 == TokenOrEmpty(token) && |c.1| == CodeLength
    ensures GuardDecision(token).Render? ==>
      forall c :: c in Calls(Reached(token, initial, evs).effects) ==> Some(c.0) == token && c.0 != []
  {
    var es := Reached(token, initial, evs).effects;
    ReachedInv(token, initial, evs);
    forall c | c in Calls(es)
      ensures c.0 == TokenOrEmpty(token) && |c.1| == CodeLength
    {
      var i :| 0 <= i < |es| && es[i] == Verify(c.0, c.1);
    }
  }

  /**
   * Flashes are cleared at the start of every accepted submission and at no
   * other time: a clear is always immediately followed by a verification call,
   * and every call is immediately preceded by a clear.
   */
  lemma ClearOnlyBeforeCall(token: Option<string>, initial: seq<string>, evs: seq<Event>, i: nat)
    requires i < |Reached(token, initial, evs).effects|
    ensures var es := Reached(token, initial, evs).effects;
      (es[i].ClearFlashes? <==> i + 1 < |es| && es[i + 1].Verify?)
  {
    ReachedInv(token, initial, evs);
  }

  /**
   * While a call is in flight, pressing submit does nothing: no second call,
   * no clear, no state change.
   */
  lemma NoSecondCallInFlight(token: Option<string>, initial: seq<string>, evs: seq<Event>)
    requires Reached(token, initial, evs).inFlight
    ensures Step(token, Reached(token, initial, evs), SubmitPressed) == Reached(token, initial, evs)
  {
    ReachedInv(token, initial, evs);
  }

  /**
   * Once any submission has been accepted, the flash store holds at most one
   * message: the error of the last failed call, if the last thing that happened
   * to a call was a failure, and nothing otherwise.
   */
  lemma AtMostOneFlash(token: Option<string>, initial: seq<string>, evs: seq<Event>)
    requires Reached(token, initial, evs).effects != []
    ensures var s := Reached(token, initial, evs);
      |s.flashes| <= 1 &&
      (s.flashes != [] <==> Last(s.effects).AddError?) &&
      (Last(s.effects).AddError? ==> s.flashes == [Last(s.effects).message])
  {
    ReachedInv(token, initial, evs);
  }

  /** A reachable view is idle (submit enabled) exactly when no call is in flight and it has not navigated. */
  lemma IdleIffSettled(token: Option<string>, initial: seq<string>, evs: seq<Event>)
    ensures var s := Reached(token, initial, evs);
      !s.submitting <==> !s.inFlight && s.navigatedTo.None?
  {
    ReachedInv(token, initial, evs);
  }

  /**
   * After a completed login has started navigating away, nothing observable
   * happens any more: no call, no clear, no flash, no second navigation, and
   * the submit button stays disabled.
   */
  lemma {:induction false} NavigationIsFinal(token: Option<string>, initial: seq<string>, s: State, evs: seq<Event>)
    requires Inv(token, initial, s) && s.navigatedTo.Some?
    ensures var t := Run(token, s, evs);
      t.effects == s.effects && t.flashes == s.flashes && t.navigatedTo == s.navigatedTo &&
      t.submitting && !t.inFlight
    decreases |evs|
  {
    if evs != [] {
      var s' := Step(token, s, evs[0]);
      assert s'.effects == s.effects && s'.flashes == s.flashes && s'.navigatedTo == s.navigatedTo;
      StepInv(token, initial, s, evs[0]);
      NavigationIsFinal(token, initial, s', evs[1..]);
    }
  }
}

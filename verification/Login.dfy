/** Interactive login: the authorizer that TDLib drives, operators submitting codes
    and passwords, and deletes that cancel, over one-slot channels and in any
    interleaving, whatever TDLib answers. */
module Login {
  import opened Common

  type Error = string
  type Verdict = Option<Error>       // None: accepted
  type Attempt = nat                 // which armed channel

  datatype Kind = Code | Password
  datatype Status = Connecting | Awaiting(kind: Kind) | Authorized | Failed

  // ---------------------------------------------------------------- live session

  // The fields of a live session that a login goes through. verdicts[a] is all
  // that was ever sent on the channel of attempt a, whose buffer holds one value.
  datatype Live = Live(
    interactive: bool,
    status: Status,
    client: bool,
    loggingIn: bool,
    lastErr: Option<Error>,
    attempt: Option<Attempt>,
    verdicts: seq<seq<Verdict>>,
    canceled: bool,
    cancelCloses: nat,
    done: bool)

  function NewLive(interactive: bool): Live {
    Live(interactive, Connecting, false, false, None, None, [], false, 0, false)
  }

  predicate ReadyClient(l: Live) {
    !l.loggingIn && l.status == Authorized && l.client
  }

  function WithClient(l: Live): Live {
    l.(client := true, loggingIn := false, status := Authorized)
  }

  function Begun(l: Live): Live {
    l.(client := true, loggingIn := true)
  }

  function FailedWith(l: Live, e: Error): Live {
    l.(client := false, loggingIn := false, lastErr := Some(e),
       status := if l.status == Authorized then Authorized else Failed)
  }

  function Armed(l: Live): Live {
    l.(attempt := Some(|l.verdicts|), verdicts := l.verdicts + [[]], lastErr := None)
  }

  function Reported(l: Live, v: Verdict): Live {
    l.(attempt := None,
       lastErr := if v.Some? then v else l.lastErr,
       verdicts := if l.attempt.Some? && l.attempt.value < |l.verdicts|
                   then l.verdicts[l.attempt.value := l.verdicts[l.attempt.value] + [v]]
                   else l.verdicts)
  }

  // Whether abortLogin finds a login in flight that nobody cancelled yet.
  predicate Abortable(l: Live) {
    l.interactive && !l.canceled && !l.done
  }

  function Aborted(l: Live): Live {
    if Abortable(l) then l.(canceled := true, cancelCloses := l.cancelCloses + 1) else l
  }

  // ---------------------------------------------------------------- handler

  datatype TdState = WaitParams | WaitPhone | WaitCode | WaitPassword | Ready | Closing | Unsupported
  datatype Flavour = User | Bot | Rehydrate

  // What Handle does before it returns or blocks: go on, block for a value, or fail.
  datatype Next = Goes | Blocks(kind: Kind) | Errs(error: Error)
  datatype Handling = Handling(live: Live, phoneSent: bool, next: Next)

  const RESTART: Error := "login attempt expired; start a new login"
  const EXPIRED: Error := "session not authorized in binlog (needs re-login)"
  const CANCELED: Error := "login canceled"
  const NOT_SUPPORTED: Error := "not supported state"

  function Fatal(l: Live, sent: bool, answer: Verdict): Handling {
    match answer
    case None => Handling(l, sent, Goes)
    case Some(e) => Handling(l.(lastErr := Some(e)), sent, Errs(e))
  }

  function Blocked(l: Live, sent: bool, kind: Kind): Handling {
    Handling(Begun(l).(status := Awaiting(kind)), sent, Blocks(kind))
  }

  // answer is what TDLib makes of the call the state leads to, if any.
  function Handle(flavour: Flavour, l: Live, sent: bool, state: TdState, answer: Verdict): Handling {
    match state
    case WaitParams => Fatal(l, sent, answer)
    case WaitPhone =>
      if flavour.Rehydrate? then Handling(l, sent, Errs(EXPIRED))
      else if flavour.Bot? then Fatal(l, sent, answer)
      else if sent then Fatal(l, sent, Some(RESTART))
      else Fatal(Begun(l), true, answer)
    case WaitCode => if flavour.Rehydrate? then Handling(l, sent, Errs(EXPIRED)) else Blocked(l, sent, Code)
    case WaitPassword => if flavour.Rehydrate? then Handling(l, sent, Errs(EXPIRED)) else Blocked(l, sent, Password)
    case Ready => Handling(l, sent, Goes)
    case Closing => Handling(l, sent, Goes)
    case Unsupported => Fatal(l, sent, Some(NOT_SUPPORTED))
  }

  predicate AsksForCode(flavour: Flavour, sent: bool, state: TdState) {
    flavour.User? && state.WaitPhone? && !sent
  }

  // ---------------------------------------------------------------- the run

  // Where the login goroutine is. Ending: the handler failed, so go-tdlib closed
  // the client. Adopting: TDLib reported Ready, the client is about to be stored.
  datatype Phase =
    | Reading
    | Waiting(kind: Kind)
    | Checking(kind: Kind)
    | Ending(error: Error)
    | Adopting
    | Unwound(ready: bool)
    | Done(ready: bool)

  datatype Submitter = Pending(kind: Kind) | Sent
  // A delete: told whether it aborted the login, then holding the client it read.
  datatype Deleter = Asked(inFlight: bool) | Holding(client: bool) | Gone

  datatype State = State(
    live: Live,
    phoneSent: bool,
    phase: Phase,
    code: Option<string>,
    password: Option<string>,
    submitters: seq<Submitter>,        // by attempt
    deleters: map<nat, Deleter>,
    codesAsked: nat,                   // SetAuthenticationPhoneNumber calls
    closedByAuthorizer: bool,
    closedByOthers: nat)

  const INITIAL :=
    State(NewLive(true), false, Reading, None, None, [], map[], 0, false, 0)

  datatype Step =
    | Present(state: TdState, answer: Verdict)
    | Take
    | SeeCancel
    | Check(answer: Verdict)
    | Fail
    | Adopt
    | Finish
    | Arm(kind: Kind)
    | Send(attempt: Attempt, value: string)
    | Abort(deleter: nat)
    | GetClient(deleter: nat)
    | GiveUp(deleter: nat)             // the abort did not unwind within its bound
    | CloseClient(deleter: nat)
    | CloseReady                       // shed or shutdown

  function Slot(st: State, kind: Kind): Option<string> {
    if kind.Code? then st.code else st.password
  }

  function WithSlot(st: State, kind: Kind, value: Option<string>): State {
    if kind.Code? then st.(code := value) else st.(password := value)
  }

  predicate Enabled(st: State, step: Step) {
    match step
    case Present(_, _) => st.phase.Reading?
    case Take => st.phase.Waiting? && Slot(st, st.phase.kind).Some?
    case SeeCancel => st.phase.Waiting? && st.live.canceled
    case Check(_) => st.phase.Checking?
    case Fail => st.phase.Ending?
    case Adopt => st.phase.Adopting?
    case Finish => st.phase.Unwound?
    case Arm(_) => true
    case Send(a, _) => a < |st.submitters| && st.submitters[a].Pending?
    case Abort(d) => d !in st.deleters
    case GetClient(d) => d in st.deleters && st.deleters[d].Asked? && (st.deleters[d].inFlight ==> st.live.done)
    case GiveUp(d) => d in st.deleters && st.deleters[d].Asked?
    case CloseClient(d) => d in st.deleters && st.deleters[d] == Holding(true)
    case CloseReady => ReadyClient(st.live)
  }

  function Presented(st: State, state: TdState, answer: Verdict): State {
    var h := Handle(User, st.live, st.phoneSent, state, answer);
    st.(live := h.live,
        phoneSent := h.phoneSent,
        codesAsked := st.codesAsked + if AsksForCode(User, st.phoneSent, state) then 1 else 0,
        closedByAuthorizer := st.closedByAuthorizer || h.next.Errs?,
        phase := match h.next
                 case Goes => if state.Ready? then Adopting else Reading
                 case Blocks(kind) => Waiting(kind)
                 case Errs(e) => Ending(e))
  }

  // The slot takes one value; a submit that finds it full gives up.
  function SentOn(st: State, a: Attempt, value: string): State
    requires a < |st.submitters| && st.submitters[a].Pending?
  {
    var kind := st.submitters[a].kind;
    var st' := st.(submitters := st.submitters[a := Sent]);
    if Slot(st, kind).None? then WithSlot(st', kind, Some(value)) else st'
  }

  function After(st: State, step: Step): State
    requires Enabled(st, step)
  {
    match step
    case Present(state, answer) => Presented(st, state, answer)
    case Take => WithSlot(st, st.phase.kind, None).(phase := Checking(st.phase.kind))
    case SeeCancel => st.(phase := Ending(CANCELED), closedByAuthorizer := true)
    case Check(answer) => st.(live := Reported(st.live, answer), phase := Reading)
    case Fail => st.(live := FailedWith(st.live, st.phase.error), phase := Unwound(false))
    case Adopt => st.(live := WithClient(st.live), phase := Unwound(true))
    case Finish => st.(live := st.live.(done := true), phase := Done(st.phase.ready))
    case Arm(kind) => st.(live := Armed(st.live), submitters := st.submitters + [Pending(kind)])
    case Send(a, value) => SentOn(st, a, value)
    case Abort(d) => st.(live := Aborted(st.live), deleters := st.deleters[d := Asked(Abortable(st.live))])
    case GetClient(d) => st.(deleters := st.deleters[d := Holding(st.live.client)])
    case GiveUp(d) => st.(deleters := st.deleters[d := Holding(st.live.client)])
    case CloseClient(d) => st.(deleters := st.deleters[d := Gone], closedByOthers := st.closedByOthers + 1)
    case CloseReady => st.(closedByOthers := st.closedByOthers + 1)
  }

  predicate IsRun(st: State, steps: seq<Step>)
    decreases |steps|
  {
    steps == [] || (Enabled(st, steps[0]) && IsRun(After(st, steps[0]), steps[1..]))
  }

  function Final(st: State, steps: seq<Step>): State
    requires IsRun(st, steps)
    decreases |steps|
  {
    if steps == [] then st else Final(After(st, steps[0]), steps[1..])
  }

  // ---------------------------------------------------------------- invariant

  predicate CountsOk(st: State) {
    && st.codesAsked == (if st.phoneSent then 1 else 0)
    && st.live.cancelCloses == (if st.live.canceled then 1 else 0)
  }

  predicate AttemptsOk(l: Live, submitters: seq<Submitter>) {
    && |l.verdicts| == |submitters|
    && (forall a :: 0 <= a < |l.verdicts| ==> |l.verdicts[a]| <= 1)
    && (l.attempt.Some? ==> l.attempt.value < |l.verdicts| && l.verdicts[l.attempt.value] == [])
  }

  predicate Over(phase: Phase, ready: bool) {
    phase == Unwound(ready) || phase == Done(ready)
  }

  predicate PhaseOk(st: State) {
    && (st.closedByAuthorizer <==> st.phase.Ending? || Over(st.phase, false))
    && (Over(st.phase, false) ==> !st.live.client)
    && (st.live.status == Authorized <==> Over(st.phase, true))
    && (st.live.done <==> st.phase.Done?)
    && (st.phase.Waiting? || st.phase.Checking? ==>
          st.live.client && st.live.loggingIn && st.live.status == Awaiting(st.phase.kind))
    && st.live.interactive
  }

  predicate Inv(st: State) {
    CountsOk(st) && AttemptsOk(st.live, st.submitters) && PhaseOk(st)
  }

  predicate SameRest(l: Live, l': Live) {
    && l'.verdicts == l.verdicts && l'.attempt == l.attempt
    && l'.canceled == l.canceled && l'.cancelCloses == l.cancelCloses
    && l'.done == l.done && l'.interactive == l.interactive
  }

  lemma PartsKeep(l: Live, sent: bool, answer: Verdict, kind: Kind)
    ensures SameRest(l, Fatal(l, sent, answer).live)
    ensures SameRest(l, Fatal(Begun(l), sent, answer).live)
    ensures SameRest(l, Blocked(l, sent, kind).live)
  {
  }

  // What handling a state leaves alone, and what it says when it blocks.
  lemma Handled(l: Live, sent: bool, state: TdState, answer: Verdict)
    ensures SameRest(l, Handle(User, l, sent, state, answer).live)
  {
    PartsKeep(l, sent, answer, Code);
    PartsKeep(l, sent, Some(RESTART), Password);
    PartsKeep(l, sent, Some(NOT_SUPPORTED), Password);
    PartsKeep(l, true, answer, Code);
    hide Fatal, Blocked, Begun;
  }

  lemma HandledOutcome(l: Live, sent: bool, state: TdState, answer: Verdict)
    ensures var h := Handle(User, l, sent, state, answer);
            && (AsksForCode(User, sent, state) <==> !sent && h.phoneSent)
            && (sent ==> h.phoneSent)
            && (h.next.Blocks? ==> h.live.client && h.live.loggingIn && h.live.status == Awaiting(h.next.kind))
            && (!h.next.Blocks? ==> h.live.status == l.status)
            && (state.Ready? ==> h.next.Goes?)
  {
  }

  lemma CountsStep(st: State, step: Step)
    requires CountsOk(st) && Enabled(st, step)
    ensures CountsOk(After(st, step))
  {
    if step.Present? {
      Handled(st.live, st.phoneSent, step.state, step.answer);
      HandledOutcome(st.live, st.phoneSent, step.state, step.answer);
    }
    hide Handle, AsksForCode, Slot, ReadyClient;
  }

  lemma ArmedOk(l: Live, submitters: seq<Submitter>, kind: Kind)
    requires AttemptsOk(l, submitters)
    ensures AttemptsOk(Armed(l), submitters + [Pending(kind)])
  {
  }

  lemma ReportedOk(l: Live, submitters: seq<Submitter>, v: Verdict)
    requires AttemptsOk(l, submitters)
    ensures AttemptsOk(Reported(l, v), submitters)
  {
  }

  lemma SameAttempts(l: Live, l': Live, submitters: seq<Submitter>, submitters': seq<Submitter>)
    requires AttemptsOk(l, submitters) && |submitters| == |submitters'|
    requires l'.verdicts == l.verdicts && l'.attempt == l.attempt
    ensures AttemptsOk(l', submitters')
  {
  }

  lemma AttemptsStep(st: State, step: Step)
    requires AttemptsOk(st.live, st.submitters) && Enabled(st, step)
    ensures AttemptsOk(After(st, step).live, After(st, step).submitters)
  {
    hide Handle, AttemptsOk, Armed, Reported;
    if step.Arm? {
      ArmedOk(st.live, st.submitters, step.kind);
    } else if step.Check? {
      ReportedOk(st.live, st.submitters, step.answer);
    } else {
      if step.Present? {
        Handled(st.live, st.phoneSent, step.state, step.answer);
      }
      SameAttempts(st.live, After(st, step).live, st.submitters, After(st, step).submitters);
    }
  }

  lemma PhaseStep(st: State, step: Step)
    requires PhaseOk(st) && Enabled(st, step)
    ensures PhaseOk(After(st, step))
  {
    if step.Present? {
      Handled(st.live, st.phoneSent, step.state, step.answer);
      HandledOutcome(st.live, st.phoneSent, step.state, step.answer);
    }
    hide Handle, AsksForCode, Slot;
  }

  lemma InvStep(st: State, step: Step)
    requires Inv(st) && Enabled(st, step)
    ensures Inv(After(st, step))
  {
    hide After, Enabled, CountsOk, AttemptsOk, PhaseOk;
    CountsStep(st, step);
    AttemptsStep(st, step);
    PhaseStep(st, step);
  }

  lemma {:induction false} InvRun(st: State, steps: seq<Step>)
    requires Inv(st) && IsRun(st, steps)
    ensures Inv(Final(st, steps))
    decreases |steps|
  {
    hide Inv, After, Enabled;
    if steps != [] {
      InvStep(st, steps[0]);
      InvRun(After(st, steps[0]), steps[1..]);
    }
  }

  // ---------------------------------------------------------------- results

  // Whatever TDLib answers and whoever submits or cancels: the code is asked for at
  // most once, no attempt gets a second verdict, the cancel channel is closed at
  // most once, and no client is ready before the login is through.
  lemma LoginSafety(steps: seq<Step>)
    requires IsRun(INITIAL, steps)
    ensures var st := Final(INITIAL, steps);
            && st.codesAsked <= 1
            && st.live.cancelCloses <= 1
            && (forall a :: 0 <= a < |st.live.verdicts| ==> |st.live.verdicts[a]| <= 1)
            && (ReadyClient(st.live) ==> Over(st.phase, true) && !st.closedByAuthorizer)
  {
    InvRun(INITIAL, steps);
  }

  // The send of a verdict finds the one-slot channel empty, so it cannot block the
  // authorizer even if nobody listens any more.
  lemma VerdictNeverBlocks(steps: seq<Step>, answer: Verdict)
    requires IsRun(INITIAL, steps) && Final(INITIAL, steps).phase.Checking?
    ensures var l := Final(INITIAL, steps).live;
            l.attempt.Some? ==> l.attempt.value < |l.verdicts| && l.verdicts[l.attempt.value] == []
  {
    InvRun(INITIAL, steps);
  }

  // The authorizer ends a login for these reasons only; a verdict is none of them.
  lemma OnlyTheseEndALogin(st: State, step: Step)
    requires Inv(st) && Enabled(st, step)
    requires !st.closedByAuthorizer
    ensures After(st, step).closedByAuthorizer <==>
              || step.SeeCancel?
              || (step.Present? && step.state.Unsupported?)
              || (step.Present? && step.state.WaitPhone? && (st.phoneSent || step.answer.Some?))
              || (step.Present? && step.state.WaitParams? && step.answer.Some?)
  {
  }

  function StateOf(kind: Kind): TdState {
    if kind.Code? then WaitCode else WaitPassword
  }

  // An operator submits a value, TDLib refuses it and asks again.
  function Refusal(a: Attempt, kind: Kind, value: string, e: Error): seq<Step> {
    [Arm(kind), Send(a, value), Take, Check(Some(e)), Present(StateOf(kind), None)]
  }

  function Refusals(a: Attempt, kind: Kind, tries: seq<(string, Error)>): seq<Step>
    decreases |tries|
  {
    if tries == [] then []
    else Refusal(a, kind, tries[0].0, tries[0].1) + Refusals(a + 1, kind, tries[1..])
  }

  function Told(tries: seq<(string, Error)>): (told: seq<seq<Verdict>>)
    decreases |tries|
  {
    if tries == [] then [] else [[Some(tries[0].1)]] + Told(tries[1..])
  }

  predicate Waits(st: State, kind: Kind) {
    st.phase == Waiting(kind) && Slot(st, kind).None?
  }

  lemma Submits(st: State, kind: Kind, value: string)
    requires Waits(st, kind)
    ensures var steps := [Arm(kind), Send(|st.submitters|, value), Take];
            && IsRun(st, steps)
            && Final(st, steps) == st.(submitters := st.submitters + [Sent], live := Armed(st.live),
                                       phase := Checking(kind))
  {
    hide Armed, IsRun, Final;
    var a := |st.submitters|;
    var s1 := After(st, Arm(kind));
    var s2 := After(s1, Send(a, value));
    assert s2.submitters == st.submitters + [Sent];
    Prepend(s2, Take, []);
    Prepend(s1, Send(a, value), [Take]);
    Prepend(st, Arm(kind), [Send(a, value), Take]);
    assert [Take] + [] == [Take] && [Send(a, value)] + [Take] == [Send(a, value), Take];
    assert [Arm(kind)] + [Send(a, value), Take] == [Arm(kind), Send(a, value), Take];
    Stop(After(s2, Take));
  }

  lemma Prepend(st: State, step: Step, rest: seq<Step>)
    requires Enabled(st, step)
    ensures IsRun(st, [step] + rest) <==> IsRun(After(st, step), rest)
    ensures IsRun(st, [step] + rest) ==> Final(st, [step] + rest) == Final(After(st, step), rest)
  {
    hide Enabled, After;
    assert ([step] + rest)[1..] == rest;
  }

  lemma Stop(st: State)
    ensures IsRun(st, []) && Final(st, []) == st
  {
  }

  lemma RefusedAndAskedAgain(st: State, kind: Kind, e: Error)
    requires st.phase == Checking(kind)
    requires st.live.client && st.live.loggingIn && st.live.status == Awaiting(kind)
    ensures var steps := [Check(Some(e)), Present(StateOf(kind), None)];
            && IsRun(st, steps)
            && Final(st, steps) == st.(live := Reported(st.live, Some(e)), phase := Waiting(kind))
  {
    NoCodeAsked(st.phoneSent, kind);
    hide AsksForCode, IsRun, Final;
    var s1 := After(st, Check(Some(e)));
    Prepend(s1, Present(StateOf(kind), None), []);
    Prepend(st, Check(Some(e)), [Present(StateOf(kind), None)]);
    assert [Present(StateOf(kind), None)] + [] == [Present(StateOf(kind), None)];
    assert [Check(Some(e))] + [Present(StateOf(kind), None)] == [Check(Some(e)), Present(StateOf(kind), None)];
    Stop(After(s1, Present(StateOf(kind), None)));
  }

  lemma NoCodeAsked(sent: bool, kind: Kind)
    ensures !AsksForCode(User, sent, StateOf(kind))
  {
  }

  lemma OneRefusal(st: State, kind: Kind, value: string, e: Error)
    requires Inv(st) && Waits(st, kind)
    ensures var steps := Refusal(|st.submitters|, kind, value, e);
            && IsRun(st, steps)
            && Final(st, steps) == st.(
                 submitters := st.submitters + [Sent],
                 live := st.live.(attempt := None, lastErr := Some(e),
                                  verdicts := st.live.verdicts + [[Some(e)]]))
            && Inv(Final(st, steps))
  {
    var first := [Arm(kind), Send(|st.submitters|, value), Take];
    var second := [Check(Some(e)), Present(StateOf(kind), None)];
    assert Refusal(|st.submitters|, kind, value, e) == first + second;
    assert st.phase == Waiting(kind);
    hide IsRun, Final, Refusal;
    Submits(st, kind, value);
    RefusedAndAskedAgain(Final(st, first), kind, e);
    RunAppend(st, first, second);
    ReportedToNewest(st.live, Some(e));
    InvRun(st, first + second);
  }

  lemma ReportedToNewest(l: Live, v: Verdict)
    ensures Reported(Armed(l), v) ==
            l.(attempt := None, lastErr := v, verdicts := l.verdicts + [[v]])
  {
    var armed := Armed(l);
    var box: seq<Verdict> := armed.verdicts[|l.verdicts|] + [v];
    assert box == [v];
    assert armed.verdicts[|l.verdicts| := box] == l.verdicts + [[v]];
  }

  lemma {:induction false} RunAppend(st: State, a: seq<Step>, b: seq<Step>)
    requires IsRun(st, a) && IsRun(Final(st, a), b)
    ensures IsRun(st, a + b) && Final(st, a + b) == Final(Final(st, a), b)
    decreases |a|
  {
    hide Enabled, After;
    if a == [] {
      assert a + b == b;
    } else {
      RunAppend(After(st, a[0]), a[1..], b);
      assert (a + b)[1..] == a[1..] + b;
    }
  }

  lemma ToldFirst(v: seq<seq<Verdict>>, tries: seq<(string, Error)>)
    requires tries != []
    ensures v + Told(tries) == (v + [[Some(tries[0].1)]]) + Told(tries[1..])
  {
  }

  // Any number of wrong codes or passwords: each submitter is told its own refusal,
  // and the login is where it was, its client open, ready for the next try.
  lemma {:induction false} RefusalsAreCheap(st: State, kind: Kind, tries: seq<(string, Error)>)
    requires Inv(st) && Waits(st, kind) && tries != []
    ensures var steps := Refusals(|st.submitters|, kind, tries);
            && IsRun(st, steps)
            && var after := Final(st, steps);
            && Waits(after, kind)
            && after.live.verdicts == st.live.verdicts + Told(tries)
            && after.live.status == st.live.status == Awaiting(kind)
            && after.live.client && !after.closedByAuthorizer
            && after.codesAsked == st.codesAsked && after.closedByOthers == st.closedByOthers
            && Inv(after)
    decreases |tries|
  {
    var a := |st.submitters|;
    var first := Refusal(a, kind, tries[0].0, tries[0].1);
    OneRefusal(st, kind, tries[0].0, tries[0].1);
    var mid := Final(st, first);
    assert |tries| == 1 ==> tries[1..] == [] && Told(tries) == [[Some(tries[0].1)]] && Refusals(a + 1, kind, tries[1..]) == [];
    assert Refusals(a, kind, tries) == first + Refusals(a + 1, kind, tries[1..]);
    hide Refusal, Refusals, Told, IsRun, Final, Inv, Enabled, After;
    if |tries| > 1 {
      RefusalsAreCheap(mid, kind, tries[1..]);
      RunAppend(st, first, Refusals(a + 1, kind, tries[1..]));
      ToldFirst(st.live.verdicts, tries);
    } else {
      assert first + [] == first;
    }
  }

  // ---------------------------------------------------------------- who closes

  // A cancel that does not come while an earlier one is still unwinding, and a
  // wait for it that is not cut short.
  predicate Orderly(st: State, step: Step) {
    match step
    case Abort(_) => !st.live.canceled || st.live.done
    case GiveUp(_) => false
    case _ => true
  }

  predicate IsOrderly(st: State, steps: seq<Step>)
    requires IsRun(st, steps)
    decreases |steps|
  {
    steps == [] || (Orderly(st, steps[0]) && IsOrderly(After(st, steps[0]), steps[1..]))
  }

  predicate DeletersOk(st: State) {
    && (forall d :: d in st.deleters && st.deleters[d] == Asked(false) ==> st.live.done)
    && (forall d :: d in st.deleters && st.deleters[d] == Holding(true) ==> st.phase == Done(true))
    && (st.closedByOthers > 0 ==> Over(st.phase, true))
  }

  lemma DeletersStep(st: State, step: Step)
    requires PhaseOk(st) && DeletersOk(st) && Enabled(st, step) && Orderly(st, step)
    ensures DeletersOk(After(st, step))
  {
  }

  lemma {:induction false} OrderlyRun(st: State, steps: seq<Step>)
    requires Inv(st) && DeletersOk(st) && IsRun(st, steps) && IsOrderly(st, steps)
    ensures Inv(Final(st, steps)) && DeletersOk(Final(st, steps))
    decreases |steps|
  {
    if steps != [] {
      hide After, Enabled, DeletersOk, PhaseOk, CountsOk, AttemptsOk, Orderly;
      InvStep(st, steps[0]);
      DeletersStep(st, steps[0]);
      OrderlyRun(After(st, steps[0]), steps[1..]);
    }
  }

  // In an orderly run nobody else closes a client the authorizer closes.
  lemma NoDoubleClose(steps: seq<Step>)
    requires IsRun(INITIAL, steps) && IsOrderly(INITIAL, steps)
    ensures var st := Final(INITIAL, steps);
            !(st.closedByAuthorizer && st.closedByOthers > 0)
  {
    OrderlyRun(INITIAL, steps);
  }

  predicate Doubled(st: State) {
    st.closedByAuthorizer && st.closedByOthers > 0
  }

  // However an otherwise orderly run goes on from this delete, nobody closes a
  // client the authorizer closes.
  ghost predicate SafeToDelete(st: State, d: nat)
    requires d !in st.deleters
  {
    forall rest :: IsRun(After(st, Abort(d)), rest) && IsOrderly(After(st, Abort(d)), rest) ==>
      !Doubled(Final(After(st, Abort(d)), rest))
  }

  // The authorizer may yet close a client it has stashed or will stash.
  predicate AtRisk(st: State) {
    st.phase.Reading? || st.phase.Waiting? || st.phase.Checking? || (st.phase.Ending? && st.live.client)
  }

  // A second cancel while the first is unwinding is told that no login is in flight;
  // it closes the client at once, and the authorizer closes it again. So at any point
  // of a login, deleting it is safe exactly if nobody has canceled it yet or the
  // authorizer is past closing: it has adopted the client, or never had one, or is
  // done.
  lemma SafeToDeleteIffFirst(steps: seq<Step>, d: nat)
    requires IsRun(INITIAL, steps) && IsOrderly(INITIAL, steps)
    requires d !in Final(INITIAL, steps).deleters
    ensures SafeToDelete(Final(INITIAL, steps), d)
       <==> !Final(INITIAL, steps).live.canceled || !AtRisk(Final(INITIAL, steps))
  {
    var st := Final(INITIAL, steps);
    OrderlyRun(INITIAL, steps);
    if !st.live.canceled {
      FirstIsSafe(st, d);
    } else if AtRisk(st) {
      SecondCancelClosesTwice(st, d);
    } else if st.phase.Adopting? || Over(st.phase, true) {
      ThroughIsSafe(st, d);
    } else {
      DeadIsSafe(st, d);
    }
  }

  lemma FirstIsSafe(st: State, d: nat)
    requires Inv(st) && DeletersOk(st) && d !in st.deleters && !st.live.canceled
    ensures SafeToDelete(st, d)
  {
    var asked := After(st, Abort(d));
    InvStep(st, Abort(d));
    DeletersStep(st, Abort(d));
    hide After, Inv, DeletersOk, IsOrderly, IsRun;
    forall rest | IsRun(asked, rest) && IsOrderly(asked, rest)
      ensures !Doubled(Final(asked, rest))
    {
      OrderlyRun(asked, rest);
      Undoubled(Final(asked, rest));
    }
  }

  // The client is, or is about to be, an account's: the authorizer is past closing.
  predicate Through(st: State) {
    (st.phase.Adopting? || Over(st.phase, true)) && !st.closedByAuthorizer
  }

  lemma {:induction false} ThroughRun(st: State, steps: seq<Step>)
    requires Through(st) && IsRun(st, steps)
    ensures Through(Final(st, steps))
    decreases |steps|
  {
    if steps != [] {
      ThroughStep(st, steps[0]);
      hide Through, After, Enabled;
      ThroughRun(After(st, steps[0]), steps[1..]);
    }
  }

  lemma ThroughStep(st: State, step: Step)
    requires Through(st) && Enabled(st, step)
    ensures Through(After(st, step))
  {
    hide Handle, Slot, Aborted, Reported, Armed;
  }

  lemma ThroughIsSafe(st: State, d: nat)
    requires Inv(st) && d !in st.deleters && (st.phase.Adopting? || Over(st.phase, true))
    ensures SafeToDelete(st, d)
  {
    var asked := After(st, Abort(d));
    assert Through(asked);
    hide After, Inv, IsOrderly, IsRun, Through;
    forall rest | IsRun(asked, rest) && IsOrderly(asked, rest)
      ensures !Doubled(Final(asked, rest))
    {
      ThroughRun(asked, rest);
      ThroughUndoubled(Final(asked, rest));
    }
  }

  lemma ThroughUndoubled(st: State)
    requires Through(st)
    ensures !Doubled(st)
  {
  }

  // The client is gone, or there was none: nobody else has closed it or will.
  predicate Dead(st: State) {
    && (st.phase.Ending? || Over(st.phase, false)) && !st.live.client && st.live.status != Authorized
    && st.closedByOthers == 0 && forall d :: d in st.deleters ==> st.deleters[d] != Holding(true)
  }

  lemma DeadStep(st: State, step: Step)
    requires Dead(st) && Enabled(st, step)
    ensures Dead(After(st, step))
  {
    hide Handle, Slot;
  }

  lemma {:induction false} DeadRun(st: State, steps: seq<Step>)
    requires Dead(st) && IsRun(st, steps)
    ensures Dead(Final(st, steps))
    decreases |steps|
  {
    if steps != [] {
      DeadStep(st, steps[0]);
      hide Dead, After, Enabled;
      DeadRun(After(st, steps[0]), steps[1..]);
    }
  }

  lemma DeadIsSafe(st: State, d: nat)
    requires Inv(st) && DeletersOk(st) && d !in st.deleters
    requires (st.phase.Ending? && !st.live.client) || Over(st.phase, false)
    ensures SafeToDelete(st, d)
  {
    var asked := After(st, Abort(d));
    assert Dead(asked);
    hide After, Inv, DeletersOk, IsOrderly, IsRun, Dead;
    forall rest | IsRun(asked, rest) && IsOrderly(asked, rest)
      ensures !Doubled(Final(asked, rest))
    {
      DeadRun(asked, rest);
      DeadUndoubled(Final(asked, rest));
    }
  }

  lemma DeadUndoubled(st: State)
    requires Dead(st)
    ensures !Doubled(st)
  {
  }

  lemma Undoubled(st: State)
    requires Inv(st) && DeletersOk(st)
    ensures !Doubled(st)
  {
  }

  // How the login comes to its cancel from where it is: TDLib accepts the value
  // being checked, asks for another, and the cancel is seen.
  function ToCancel(phase: Phase): seq<Step> {
    match phase
    case Checking(_) => [Check(None)] + ([Present(WaitCode, None)] + ([SeeCancel] + []))
    case Reading => [Present(WaitCode, None)] + ([SeeCancel] + [])
    case Waiting(_) => [SeeCancel] + []
    case _ => []
  }

  lemma Nothing(st: State)
    ensures IsRun(st, []) && IsOrderly(st, []) && Final(st, []) == st
  {
  }

  lemma SeesCancel(st: State)
    requires st.phase.Waiting? && st.live.canceled
    ensures IsRun(st, [SeeCancel] + []) && IsOrderly(st, [SeeCancel] + [])
    ensures Final(st, [SeeCancel] + []).closedByAuthorizer
    ensures Final(st, [SeeCancel] + []).closedByOthers == st.closedByOthers
  {
    Nothing(After(st, SeeCancel));
    hide IsRun, IsOrderly, Final;
    OrderlyPrepend(st, SeeCancel, []);
  }

  lemma AsksAndSees(st: State)
    requires st.phase.Reading? && st.live.canceled
    ensures var steps := [Present(WaitCode, None)] + ([SeeCancel] + []);
            && IsRun(st, steps) && IsOrderly(st, steps)
            && Final(st, steps).closedByAuthorizer && Final(st, steps).closedByOthers == st.closedByOthers
  {
    hide IsRun, IsOrderly, Final;
    SeesCancel(After(st, Present(WaitCode, None)));
    OrderlyPrepend(st, Present(WaitCode, None), [SeeCancel] + []);
  }

  lemma ComesToCancel(st: State)
    requires AtRisk(st) && !st.phase.Ending? && st.live.canceled
    ensures var steps := ToCancel(st.phase);
            && IsRun(st, steps) && IsOrderly(st, steps)
            && Final(st, steps).closedByAuthorizer && Final(st, steps).closedByOthers == st.closedByOthers
  {
    hide IsRun, IsOrderly, Final;
    if st.phase.Waiting? {
      SeesCancel(st);
    } else if st.phase.Reading? {
      AsksAndSees(st);
    } else {
      AsksAndSees(After(st, Check(None)));
      OrderlyPrepend(st, Check(None), [Present(WaitCode, None)] + ([SeeCancel] + []));
    }
  }

  // With the client stashed, it is closed at once; without, as soon as it is.
  lemma SecondCancelClosesTwice(st: State, d: nat)
    requires Inv(st) && AtRisk(st) && d !in st.deleters && st.live.canceled
    ensures !SafeToDelete(st, d)
  {
    hide IsRun, Final, IsOrderly, SafeToDelete;
    InvStep(st, Abort(d));
    var asked := After(st, Abort(d));
    if st.live.client {
      var rest := ClosesTwice(asked, d);
      NotSafe(st, d, rest);
    } else {
      var stashed := After(asked, Present(WaitCode, None));
      InvStep(asked, Present(WaitCode, None));
      var rest := ClosesTwice(stashed, d);
      OrderlyPrepend(asked, Present(WaitCode, None), rest);
      NotSafe(st, d, [Present(WaitCode, None)] + rest);
    }
  }

  lemma NotSafe(st: State, d: nat, rest: seq<Step>)
    requires d !in st.deleters
    requires IsRun(After(st, Abort(d)), rest) && IsOrderly(After(st, Abort(d)), rest)
    requires Doubled(Final(After(st, Abort(d)), rest))
    ensures !SafeToDelete(st, d)
  {
    hide After, IsRun, IsOrderly, Final;
  }

  lemma ClosesTwice(asked: State, d: nat) returns (rest: seq<Step>)
    requires Inv(asked) && AtRisk(asked) && asked.live.client && asked.live.canceled
    requires d in asked.deleters && asked.deleters[d] == Asked(false)
    ensures IsRun(asked, rest) && IsOrderly(asked, rest) && Doubled(Final(asked, rest))
  {
    hide IsRun, Final, IsOrderly;
    var holding := After(asked, GetClient(d));
    var closed := After(holding, CloseClient(d));
    var tail: seq<Step> := [];
    if asked.phase.Ending? {
      Nothing(closed);
    } else {
      tail := ToCancel(closed.phase);
      ComesToCancel(closed);
    }
    assert IsRun(closed, tail) && IsOrderly(closed, tail) && Doubled(Final(closed, tail));
    hide After, Inv, AtRisk, ToCancel;
    OrderlyPrepend(holding, CloseClient(d), tail);
    OrderlyPrepend(asked, GetClient(d), [CloseClient(d)] + tail);
    rest := [GetClient(d)] + ([CloseClient(d)] + tail);
  }

  lemma OrderlyPrepend(st: State, step: Step, rest: seq<Step>)
    requires Enabled(st, step) && Orderly(st, step)
    requires IsRun(After(st, step), rest) && IsOrderly(After(st, step), rest)
    ensures IsRun(st, [step] + rest) && IsOrderly(st, [step] + rest)
    ensures Final(st, [step] + rest) == Final(After(st, step), rest)
  {
    hide Enabled, After, Orderly;
    assert ([step] + rest)[1..] == rest;
  }

  // The state that lemma starts from is reached: one delete is enough.
  lemma ACanceledWaitIsReached()
    ensures var steps := [Present(WaitCode, None), Abort(0)];
            && IsRun(INITIAL, steps)
            && Final(INITIAL, steps).phase == Waiting(Code)
            && Final(INITIAL, steps).live.canceled && 1 !in Final(INITIAL, steps).deleters
  {
    var steps := [Present(WaitCode, None), Abort(0)];
    var s1 := After(INITIAL, steps[0]);
    assert steps[1..] == [Abort(0)] && steps[1..][1..] == [];
    assert IsRun(s1, [Abort(0)]);
  }
}

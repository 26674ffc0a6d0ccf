/** The live session and the authorization handler as their code has them, changing
    their fields step by step; each method is what the login machine says it is. */
module LoginCode {
  import opened Common
  import opened Login

  class LiveSession {
    const interactive: bool
    var status: Status
    var client: bool                   // whether a client is stashed
    var loggingIn: bool
    var lastErr: Option<Error>
    var attempt: Option<Attempt>
    var verdicts: seq<seq<Verdict>>    // per channel, what was sent on it
    var canceled: bool
    var cancelCloses: nat
    var done: bool

    ghost function Value(): Live
      reads this
    {
      Live(interactive, status, client, loggingIn, lastErr, attempt, verdicts, canceled, cancelCloses, done)
    }

    constructor (interactive: bool)
      ensures Value() == NewLive(interactive)
    {
      this.interactive := interactive;
      status, client, loggingIn, lastErr, attempt := Connecting, false, false, None, None;
      verdicts, canceled, cancelCloses, done := [], false, 0, false;
    }

    method SetStatus(st: Status)
      modifies this`status
      ensures status == st
    {
      if status == st {
        return;
      }
      status := st;
    }

    method SetClient()
      modifies this
      ensures Value() == WithClient(old(Value()))
    {
      client, loggingIn := true, false;
      SetStatus(Authorized);
    }

    method Ready() returns (cl: bool)
      ensures cl == ReadyClient(Value())
    {
      if loggingIn || status != Authorized {
        return false;
      }
      return client;
    }

    method BeginLogin()
      modifies this
      ensures Value() == Begun(old(Value()))
    {
      client, loggingIn := true, true;
    }

    method FailLogin(e: Error)
      modifies this
      ensures Value() == FailedWith(old(Value()), e)
    {
      client, loggingIn, lastErr := false, false, Some(e);
      if status != Authorized {
        SetStatus(Failed);
      }
    }

    method ArmAttempt() returns (a: Attempt)
      modifies this
      ensures Value() == Armed(old(Value()))
      ensures a == |old(verdicts)| && attempt == Some(a)
    {
      a := |verdicts|;
      verdicts := verdicts + [[]];
      attempt, lastErr := Some(a), None;
    }

    method ReportAttempt(v: Verdict)
      modifies this
      ensures Value() == Reported(old(Value()), v)
    {
      var ch := attempt;
      attempt := None;
      if v.Some? {
        lastErr := v;
      }
      if ch.Some? && ch.value < |verdicts| {
        verdicts := verdicts[ch.value := verdicts[ch.value] + [v]];
      }
    }

    method AbortLogin() returns (inFlight: bool)
      modifies this
      ensures inFlight == Abortable(old(Value()))
      ensures Value() == Aborted(old(Value()))
    {
      if !interactive || canceled {
        return false;
      }
      if done {
        return false;
      }
      canceled := true;
      cancelCloses := cancelCloses + 1;
      return true;
    }
  }

  // What the wait for the operator ends with: a value and TDLib's answer to it, or
  // the cancel.
  datatype Input = Value(answer: Verdict) | Cancel

  class AuthHandler {
    const flavour: Flavour
    const ls: LiveSession
    var phoneSent: bool

    constructor (flavour: Flavour, ls: LiveSession)
      ensures this.flavour == flavour && this.ls == ls && !phoneSent
    {
      this.flavour, this.ls, phoneSent := flavour, ls, false;
    }

    method Fatal(answer: Verdict) returns (err: Verdict)
      modifies ls
      ensures err == answer
      ensures ls.Value() == if answer.Some? then old(ls.Value()).(lastErr := answer) else old(ls.Value())
    {
      if answer.Some? {
        ls.lastErr := answer;
      }
      return answer;
    }

    method Await(kind: Kind, input: Input) returns (err: Verdict)
      modifies ls
      ensures var blocked := Begun(old(ls.Value())).(status := Awaiting(kind));
              match input
              case Cancel => err == Some(CANCELED) && ls.Value() == blocked
              case Value(answer) => err == None && ls.Value() == Reported(blocked, answer)
    {
      ls.BeginLogin();
      ls.SetStatus(Awaiting(kind));
      match input {
        case Cancel => return Some(CANCELED);
        case Value(answer) =>
          ls.ReportAttempt(answer);
          return None;
      }
    }

    // An error makes go-tdlib close the client; only a cancel, and never what TDLib
    // said to a submitted value, makes a wait end in one.
    method HandleState(state: TdState, answer: Verdict, input: Input) returns (err: Verdict)
      modifies this, ls
      ensures var h := Handle(flavour, old(ls.Value()), old(phoneSent), state, answer);
              && phoneSent == h.phoneSent
              && match h.next
                 case Goes => err == None && ls.Value() == h.live
                 case Errs(e) => err == Some(e) && ls.Value() == h.live
                 case Blocks(_) =>
                   if input.Cancel? then err == Some(CANCELED) && ls.Value() == h.live
                   else err == None && ls.Value() == Reported(h.live, input.answer)
    {
      match state {
        case WaitParams =>
          err := Fatal(answer);
        case WaitPhone =>
          if flavour == Rehydrate {
            return Some(EXPIRED);
          }
          if flavour == Bot {
            err := Fatal(answer);
            return;
          }
          if phoneSent {
            err := Fatal(Some(RESTART));
            return;
          }
          phoneSent := true;
          ls.BeginLogin();
          err := Fatal(answer);
        case WaitCode =>
          if flavour == Rehydrate {
            return Some(EXPIRED);
          }
          err := Await(Code, input);
        case WaitPassword =>
          if flavour == Rehydrate {
            return Some(EXPIRED);
          }
          err := Await(Password, input);
        case Ready => return None;
        case Closing => return None;
        case Unsupported =>
          err := Fatal(Some(NOT_SUPPORTED));
      }
    }
  }

  // The steps a call of the handler stands for, given what its wait ends with.
  function HandleSteps(state: TdState, answer: Verdict, next: Next, input: Input): seq<Step> {
    if !next.Blocks? then [Present(state, answer)]
    else if input.Cancel? then [Present(state, answer), SeeCancel]
    else [Present(state, answer), Take, Check(input.answer)]
  }

  // For a user login, one call of the handler is a run of the login machine with the
  // result HandleState is proved to have: so what holds over all its runs holds for
  // the handler. The wait needs what ends it: a submitted value, or a cancel.
  lemma HandleIsRun(st: State, state: TdState, answer: Verdict, input: Input)
    requires st.phase.Reading?
    requires var next := Handle(User, st.live, st.phoneSent, state, answer).next;
             next.Blocks? ==> if input.Cancel? then st.live.canceled else Slot(st, next.kind).Some?
    ensures var h := Handle(User, st.live, st.phoneSent, state, answer);
            var steps := HandleSteps(state, answer, h.next, input);
            && IsRun(st, steps)
            && var e := Final(st, steps);
            && e.phoneSent == h.phoneSent
            && e.live == (if h.next.Blocks? && input.Value? then Reported(h.live, input.answer) else h.live)
            && e.phase == (match h.next
                           case Goes => if state.Ready? then Adopting else Reading
                           case Errs(e) => Ending(e)
                           case Blocks(_) => if input.Cancel? then Ending(CANCELED) else Reading)
  {
    Handled(st.live, st.phoneSent, state, answer);
    hide Handle, AsksForCode, Reported, IsRun, Final;
    var h := Handle(User, st.live, st.phoneSent, state, answer);
    var present := Present(state, answer);
    var s1 := After(st, present);
    if !h.next.Blocks? {
      Prepend(st, present, []);
      assert [present] + [] == [present];
      Stop(s1);
    } else if input.Cancel? {
      var s2 := After(s1, SeeCancel);
      Prepend(s1, SeeCancel, []);
      Prepend(st, present, [SeeCancel]);
      assert [SeeCancel] + [] == [SeeCancel] && [present] + [SeeCancel] == [present, SeeCancel];
      Stop(s2);
    } else {
      var check := Check(input.answer);
      var s2 := After(s1, Take);
      var s3 := After(s2, check);
      Prepend(s2, check, []);
      Prepend(s1, Take, [check]);
      Prepend(st, present, [Take, check]);
      assert [check] + [] == [check] && [Take] + [check] == [Take, check];
      assert [present] + [Take, check] == [present, Take, check];
      Stop(s3);
    }
  }
}

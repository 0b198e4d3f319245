/** The step controller of the account-activation modal: the user asks to
    activate, reads the M-Pesa payment instructions, pastes a transaction
    code and finishes; two seconds later a timer invokes `onActivate` and
    closes the modal. The same flow as the withdrawal-packages modal, with
    a single offer and so no selection.

    `Handle` is the controller as one transition function over a snapshot
    of the component's hook state; `Modal` is the component itself, whose
    handlers update that state in place and are specified by `Handle`. */
module AccountActivation {
  import PaymentCode
  import CallLog

  datatype Step = Activation | MpesaPayment | TransactionCode | Success

  /** The host callbacks the modal invokes. */
  datatype Callback = OnClose | OnActivate

  /** What the user (or a pending timer) can do. Each button event only has
      an effect in the step whose layout renders that button. */
  datatype Event =
    | ActivatePressed       // "Activate Account"
    | ProceedPressed
    | BackPressed
    | CodeChanged(text: string)
    | FinishPressed
    | CloseRequested        // X button, "Not Now", backdrop tap or hardware back
    | TimerFired            // the oldest pending 2000 ms timer runs

  /** The hook state, plus how many timers are scheduled and not yet run. */
  datatype State = State(step: Step, code: string, codeValid: bool, timers: nat)

  /** The state after an event and the callbacks it invoked, in order. */
  datatype Outcome = Outcome(after: State, calls: seq<Callback>)

  /** The state `useState` starts from. */
  const Initial := State(Activation, "", false, 0)

  /** What `handleClose` leaves behind; it never touches pending timers. */
  function Reset(timers: nat): State
  {
    State(Activation, "", false, timers)
  }

  predicate IsActivate(c: Callback)
  {
    c == OnActivate
  }

  predicate IsFinish(e: Event)
  {
    e == FinishPressed
  }

  /** One event handled by the controller. Only Finish schedules a timer
      and only a timer spends one; only a code edit touches the code; the
      success layout is entered only by Finish on a valid code; callbacks
      come only from closing and from a timer. */
  function Handle(s: State, e: Event): (o: Outcome)
    ensures o.after.timers != s.timers ==> e == FinishPressed || e == TimerFired
    ensures e == FinishPressed && o.after != s ==> o.after.timers == s.timers + 1
    ensures o.after.code != s.code ==> e.CodeChanged? || e == CloseRequested || e == TimerFired
    ensures o.after.step == Success && s.step != Success ==>
      e == FinishPressed && s.step == TransactionCode && s.codeValid
    ensures o.calls != [] ==> e == CloseRequested || e == TimerFired
  {
    match e
    case ActivatePressed =>
      if s.step == Activation then Outcome(s.(step := MpesaPayment), []) else Outcome(s, [])
    case ProceedPressed =>
      if s.step == MpesaPayment then Outcome(s.(step := TransactionCode), []) else Outcome(s, [])
    case BackPressed =>
      if s.step == MpesaPayment then Outcome(s.(step := Activation), [])
      else if s.step == TransactionCode then Outcome(s.(step := MpesaPayment), [])
      else Outcome(s, [])
    case CodeChanged(text) =>
      if s.step == TransactionCode then
        var code := PaymentCode.Entered(text);
        Outcome(s.(code := code, codeValid := PaymentCode.IsValid(code)), [])
      else Outcome(s, [])
    case FinishPressed =>
      if s.step == TransactionCode && s.codeValid then
        Outcome(s.(step := Success, timers := s.timers + 1), [])
      else Outcome(s, [])
    case CloseRequested =>
      Outcome(Reset(s.timers), [OnClose])
    case TimerFired =>
      if s.timers == 0 then Outcome(s, [])
      else Outcome(Reset(s.timers - 1), [OnActivate, OnClose])
  }

  /** A sequence of events handled in order; the log is every call made. */
  function Run(s: State, es: seq<Event>): Outcome
  {
    if es == [] then Outcome(s, [])
    else
      var before := Run(s, es[..|es| - 1]);
      var last := Handle(before.after, es[|es| - 1]);
      Outcome(last.after, before.calls + last.calls)
  }

  /** What holds of every state the modal can reach: the flag tracks the
      code, the code fits the input, and the success layout always has a
      timer pending. */
  predicate Inv(s: State)
  {
    && s.codeValid == PaymentCode.IsValid(s.code)
    && PaymentCode.Utf16Length(s.code) <= PaymentCode.MaxLength
    && (s.step == Success ==> s.timers > 0)
  }

  // ---------------------------------------------------------------------
  // Single events

  lemma InitialIsValid()
    ensures Inv(Initial)
    ensures Initial.step == Activation && Initial.code == "" && !Initial.codeValid
  {
  }

  lemma HandleKeepsInv(s: State, e: Event)
    requires Inv(s)
    ensures Inv(Handle(s, e).after)
  {
  }

  /** "Activate Account" moves from the first layout to the payment
      instructions and changes nothing else; elsewhere it is not rendered. */
  lemma ActivateStartsPayment(s: State)
    ensures var o := Handle(s, ActivatePressed);
      && o.calls == []
      && (s.step == Activation ==>
            o.after.step == MpesaPayment && o.after.code == s.code
            && o.after.codeValid == s.codeValid && o.after.timers == s.timers)
      && (s.step != Activation ==> o.after == s)
  {
  }

  /** Proceed and Back move one step along the flow and keep the code and
      its flag. */
  lemma NavigationKeepsCode(s: State, e: Event)
    requires e == ProceedPressed || e == BackPressed
    ensures var o := Handle(s, e);
      && o.calls == []
      && o.after.code == s.code && o.after.codeValid == s.codeValid
      && o.after.timers == s.timers
      && o.after.step == (match (s.step, e)
           case (MpesaPayment, ProceedPressed) => TransactionCode
           case (MpesaPayment, BackPressed) => Activation
           case (TransactionCode, BackPressed) => MpesaPayment
           case _ => s.step)
  {
  }

  /** Editing the code is possible only on the code-entry layout; there it
      stores the longest start of the text that fits in 20 code units,
      recomputes the flag, and leaves the rest of the state alone. */
  lemma CodeEditRevalidates(s: State, text: string)
    requires Inv(s)
    ensures var o := Handle(s, CodeChanged(text));
      && o.calls == [] && Inv(o.after)
      && (s.step == TransactionCode ==>
            && o.after == s.(code := PaymentCode.Entered(text),
                             codeValid := PaymentCode.Utf16Length(text) >= PaymentCode.MinLength)
            && o.after.code <= text
            && (o.after.codeValid <==> PaymentCode.Utf16Length(text) >= PaymentCode.MinLength))
      && (s.step != TransactionCode ==> o.after == s)
  {
    PaymentCode.EnteredValidIffLongEnough(text);
  }

  /** Finish reaches Success exactly when the code is valid on the code-entry
      layout, and then schedules one timer; otherwise it does nothing. */
  lemma FinishNeedsValidCode(s: State)
    requires Inv(s)
    ensures var o := Handle(s, FinishPressed);
      && o.calls == []
      && (s.step == TransactionCode && PaymentCode.IsValid(s.code) ==>
            o.after.step == Success && o.after.timers == s.timers + 1 && o.after.code == s.code)
      && (!(s.step == TransactionCode && PaymentCode.IsValid(s.code)) ==> o.after == s)
  {
  }

  /** No event other than an accepted Finish enters Success. */
  lemma OnlyFinishEntersSuccess(s: State, e: Event)
    requires Inv(s)
    requires s.step != Success && Handle(s, e).after.step == Success
    ensures e == FinishPressed && s.step == TransactionCode && PaymentCode.IsValid(s.code)
    ensures Handle(s, e).after.timers == s.timers + 1
  {
  }

  /** Closing from any step resets the form and calls `onClose` once; the
      pending timers stay pending. */
  lemma CloseResets(s: State)
    ensures var o := Handle(s, CloseRequested);
      && o.after.step == Activation && o.after.code == "" && !o.after.codeValid
      && o.after.timers == s.timers
      && o.calls == [OnClose]
  {
  }

  /** A firing timer calls `onActivate` once, strictly before the `onClose`
      of the reset that follows. */
  lemma TimerActivatesThenCloses(s: State)
    requires s.timers > 0
    ensures var o := Handle(s, TimerFired);
      && o.calls == [OnActivate, OnClose]
      && o.after == Reset(s.timers - 1)
  {
  }

  // ---------------------------------------------------------------------
  // Sequences of events

  lemma {:induction false} RunKeepsInv(s: State, es: seq<Event>)
    requires Inv(s)
    ensures Inv(Run(s, es).after)
    decreases |es|
  {
    if es != [] {
      RunKeepsInv(s, es[..|es| - 1]);
      HandleKeepsInv(Run(s, es[..|es| - 1]).after, es[|es| - 1]);
    }
  }

  /** Success is reached only through a Finish pressed on the code-entry
      layout with a valid code. */
  lemma {:induction false} SuccessNeedsValidCode(s: State, es: seq<Event>)
    requires Inv(s) && s.step != Success
    requires Run(s, es).after.step == Success
    ensures exists k ::
      (0 <= k < |es| && es[k] == FinishPressed
       && Run(s, es[..k]).after.step == TransactionCode
       && PaymentCode.IsValid(Run(s, es[..k]).after.code))
    decreases |es|
  {
    var n := |es| - 1;
    var before := Run(s, es[..n]).after;
    RunKeepsInv(s, es[..n]);
    if before.step == Success {
      SuccessNeedsValidCode(s, es[..n]);
      var k :| 0 <= k < n && es[..n][k] == FinishPressed
        && Run(s, es[..n][..k]).after.step == TransactionCode
        && PaymentCode.IsValid(Run(s, es[..n][..k]).after.code);
      assert es[..n][..k] == es[..k];
    } else {
      OnlyFinishEntersSuccess(before, es[n]);
      assert es[n] == FinishPressed && before.step == TransactionCode
        && PaymentCode.IsValid(before.code);
    }
  }

  /** Every `onActivate` in the log is immediately followed by `onClose`. */
  lemma {:induction false} ActivateThenClose(s: State, es: seq<Event>)
    ensures CallLog.EachFollowedBy(Run(s, es).calls, IsActivate, OnClose)
    decreases |es|
  {
    if es != [] {
      ActivateThenClose(s, es[..|es| - 1]);
      var last := Handle(Run(s, es[..|es| - 1]).after, es[|es| - 1]);
      assert CallLog.EachFollowedBy(last.calls, IsActivate, OnClose);
      CallLog.EachFollowedByAppend(Run(s, es[..|es| - 1]).calls, last.calls, IsActivate, OnClose);
    }
  }

  /** One event spends at most the timer it fires and adds at most the one
      an accepted Finish schedules. */
  lemma HandleSpendsTimers(s: State, e: Event)
    ensures CallLog.Count(Handle(s, e).calls, IsActivate) + Handle(s, e).after.timers
      <= s.timers + (if IsFinish(e) then 1 else 0)
  {
    var o := Handle(s, e);
    if e == TimerFired && s.timers > 0 {
      assert o.calls == [OnActivate, OnClose];
      assert o.calls[1..] == [OnClose];
      assert [OnClose][1..] == [];
    } else {
      assert forall i :: 0 <= i < |o.calls| ==> !IsActivate(o.calls[i]);
    }
  }

  /** `onActivate` calls never outnumber accepted Finish presses: each one
      spends a pending timer, and only Finish schedules one. */
  lemma {:induction false} ActivationsNeedFinishes(s: State, es: seq<Event>)
    ensures CallLog.Count(Run(s, es).calls, IsActivate) + Run(s, es).after.timers
      <= s.timers + CallLog.Count(es, IsFinish)
    decreases |es|
  {
    if es != [] {
      var n := |es| - 1;
      var before := Run(s, es[..n]);
      var last := Handle(before.after, es[n]);
      ActivationsNeedFinishes(s, es[..n]);
      CallLog.CountAppend(before.calls, last.calls, IsActivate);
      assert es == es[..n] + [es[n]];
      CallLog.CountAppend(es[..n], [es[n]], IsFinish);
      HandleSpendsTimers(before.after, es[n]);
    }
  }

  /** From a freshly mounted modal, no activation happens without Finish. */
  lemma ActivationsFromInitial(es: seq<Event>)
    ensures CallLog.Count(Run(Initial, es).calls, IsActivate) <= CallLog.Count(es, IsFinish)
  {
    ActivationsNeedFinishes(Initial, es);
  }

  // ---------------------------------------------------------------------
  // Scenarios

  /** Running one more event continues from where the shorter run ended. */
  lemma RunExtend(s: State, es: seq<Event>, e: Event, longer: seq<Event>, before: Outcome)
    requires longer == es + [e] && Run(s, es) == before
    ensures Run(s, longer)
      == Outcome(Handle(before.after, e).after, before.calls + Handle(before.after, e).calls)
  {
    assert longer[..|es|] == es;
  }

  /** A ten-character code and Finish reach the success layout with one
      timer pending. */
  lemma ActivationFinished()
    ensures Run(Initial, [ActivatePressed, ProceedPressed, CodeChanged("ABCDEFGHIJ"), FinishPressed])
      == Outcome(State(Success, "ABCDEFGHIJ", true, 1), [])
  {
    var e0, e1, e2, e3 := ActivatePressed, ProceedPressed, CodeChanged("ABCDEFGHIJ"), FinishPressed;
    PaymentCode.ShortPlainTextKept("ABCDEFGHIJ");
    RunExtend(Initial, [], e0, [e0],
      Outcome(Initial, []));
    RunExtend(Initial, [e0], e1, [e0, e1],
      Outcome(State(MpesaPayment, "", false, 0), []));
    RunExtend(Initial, [e0, e1], e2, [e0, e1, e2],
      Outcome(State(TransactionCode, "", false, 0), []));
    RunExtend(Initial, [e0, e1, e2], e3, [e0, e1, e2, e3],
      Outcome(State(TransactionCode, "ABCDEFGHIJ", true, 0), []));
  }

  /** The timer is never cancelled: "Not Now" or X on the success layout
      calls `onClose`, and the still-pending timer later activates the
      account and calls `onClose` a second time. */
  lemma LateActivationAfterClose()
    ensures Run(Initial, [ActivatePressed, ProceedPressed, CodeChanged("ABCDEFGHIJ"), FinishPressed,
                          CloseRequested, TimerFired]).calls == [OnClose, OnActivate, OnClose]
  {
    var e0, e1, e2, e3, e4, e5 := ActivatePressed, ProceedPressed, CodeChanged("ABCDEFGHIJ"),
      FinishPressed, CloseRequested, TimerFired;
    ActivationFinished();
    RunExtend(Initial, [e0, e1, e2, e3], e4, [e0, e1, e2, e3, e4],
      Outcome(State(Success, "ABCDEFGHIJ", true, 1), []));
    RunExtend(Initial, [e0, e1, e2, e3, e4], e5, [e0, e1, e2, e3, e4, e5],
      Outcome(Reset(1), [OnClose]));
  }

  // ---------------------------------------------------------------------
  // The component

  /** One mounted modal. Its fields are the component's hook state; the
      handlers mutate them as the setters do. `calls` records the host
      callbacks invoked so far. */
  class Modal {
    var step: Step
    var code: string
    var codeValid: bool
    var timers: nat
    ghost var calls: seq<Callback>

    function Snapshot(): State
      reads this
    {
      State(step, code, codeValid, timers)
    }

    ghost predicate Valid()
      reads this
    {
      Inv(Snapshot())
    }

    constructor ()
      ensures Valid() && Snapshot() == Initial && calls == []
    {
      step, code, codeValid, timers := Activation, "", false, 0;
      calls := [];
    }

    /** "Activate Account". */
    method Activate()
      requires Valid()
      modifies this
      ensures Valid()
      ensures Snapshot() == Handle(old(Snapshot()), ActivatePressed).after
      ensures calls == old(calls)
    {
      if step == Activation {
        step := MpesaPayment;
      }
    }

    /** Proceed on the payment-instructions layout. */
    method Proceed()
      requires Valid()
      modifies this
      ensures Valid()
      ensures Snapshot() == Handle(old(Snapshot()), ProceedPressed).after
      ensures calls == old(calls)
    {
      if step == MpesaPayment {
        step := TransactionCode;
      }
    }

    /** Back on the payment-instructions or code-entry layout. */
    method Back()
      requires Valid()
      modifies this
      ensures Valid()
      ensures Snapshot() == Handle(old(Snapshot()), BackPressed).after
      ensures calls == old(calls)
    {
      if step == MpesaPayment {
        step := Activation;
      } else if step == TransactionCode {
        step := MpesaPayment;
      }
    }

    /** `onChangeText` of the code input, with the validity effect applied. */
    method ChangeCode(text: string)
      requires Valid()
      modifies this
      ensures Valid()
      ensures Snapshot() == Handle(old(Snapshot()), CodeChanged(text)).after
      ensures calls == old(calls)
    {
      if step == TransactionCode {
        code := PaymentCode.Entered(text);
        codeValid := PaymentCode.IsValid(code);
      }
    }

    /** `handleActivationSuccess`, reachable only through the enabled Finish
        button: enters Success and schedules the timer. */
    method ActivationSuccess()
      requires Valid()
      modifies this
      ensures Valid()
      ensures Snapshot() == Handle(old(Snapshot()), FinishPressed).after
      ensures calls == old(calls)
    {
      if step == TransactionCode && codeValid {
        step := Success;
        timers := timers + 1;
      }
    }

    /** `handleClose`. */
    method Close()
      requires Valid()
      modifies this
      ensures Valid()
      ensures Snapshot() == Handle(old(Snapshot()), CloseRequested).after
      ensures calls == old(calls) + [OnClose]
    {
      step := Activation;
      code := "";
      codeValid := false;
      calls := calls + [OnClose];
    }

    /** The oldest pending timer runs its callback. */
    method FireTimer()
      requires Valid()
      modifies this
      ensures Valid()
      ensures Snapshot() == Handle(old(Snapshot()), TimerFired).after
      ensures calls == old(calls) + Handle(old(Snapshot()), TimerFired).calls
    {
      if timers > 0 {
        timers := timers - 1;
        calls := calls + [OnActivate];
        step, code, codeValid := Activation, "", false;
        calls := calls + [OnClose];
      }
    }
  }
}

/** The step controller of the withdrawal-packages modal: the user picks
    the Premium or Elite package, reads the M-Pesa payment instructions,
    pastes a transaction code and finishes; two seconds later a timer
    invokes the upgrade callback for the package and closes the modal.

    `Handle` is the controller as one transition function over a snapshot
    of the component's hook state; `Modal` is the component itself, whose
    handlers update that state in place and are specified by `Handle`. */
module WithdrawalPackages {
  import PaymentCode
  import CallLog

  datatype Step = Packages | MpesaPayment | TransactionCode | Success

  datatype Package = Premium | Elite

  /** `selectedPackage`: `'premium' | 'elite' | null`. */
  datatype Selection = NoPackage | Chosen(package: Package)

  /** The host callbacks the modal invokes. */
  datatype Callback = OnClose | OnContinueBasic | OnUpgradePremium | OnUpgradeElite

  /** What the user (or the pending timer) can do. Each button event only
      has an effect in the step whose layout renders that button. */
  datatype Event =
    | PremiumPressed        // "Get Premium Package"
    | ElitePressed          // "Get Elite Package"
    | ContinueBasicPressed  // "Continue with Basic Account"
    | ProceedPressed
    | BackPressed
    | CodeChanged(text: string)
    | FinishPressed
    | CloseRequested        // X button, backdrop tap or hardware back
    | TimerFired            // the oldest pending 2000 ms timer runs

  /** The hook state, plus the timers scheduled and not yet run, oldest
      first; each remembers the selection its closure captured. */
  datatype State = State(
    step: Step,
    selection: Selection,
    code: string,
    codeValid: bool,
    timers: seq<Selection>)

  /** The state after an event and the callbacks it invoked, in order. */
  datatype Outcome = Outcome(after: State, calls: seq<Callback>)

  /** The state `useState` starts from. */
  const Initial := State(Packages, NoPackage, "", false, [])

  /** Price on each package card, in KES. */
  function CardPrice(p: Package): string
  {
    match p
    case Premium => "350"
    case Elite => "650"
  }

  /** "Amount to Pay" on the payment-instructions layout. */
  function PackageAmount(s: Selection): (amount: string)
    ensures amount == "350" <==> s == Chosen(Premium)
    ensures amount == "650" <==> s != Chosen(Premium)
  {
    if s == Chosen(Premium) then "350" else "650"
  }

  /** What `handleClose` leaves behind; it never touches pending timers. */
  function Reset(timers: seq<Selection>): State
  {
    State(Packages, NoPackage, "", false, timers)
  }

  /** The upgrade callback a timer invokes for the selection it captured. */
  function UpgradeCall(s: Selection): (calls: seq<Callback>)
    ensures |calls| <= 1
    ensures calls == [] <==> s == NoPackage
    ensures OnUpgradePremium in calls <==> s == Chosen(Premium)
    ensures OnUpgradeElite in calls <==> s == Chosen(Elite)
  {
    match s
    case Chosen(Premium) => [OnUpgradePremium]
    case Chosen(Elite) => [OnUpgradeElite]
    case NoPackage => []
  }

  predicate IsUpgrade(c: Callback)
  {
    c == OnUpgradePremium || c == OnUpgradeElite
  }

  predicate IsFinish(e: Event)
  {
    e == FinishPressed
  }

  /** One event handled by the controller. Only Finish schedules a timer
      and only a timer spends one; only a code edit touches the code; the
      success layout is entered only by Finish on a valid code; callbacks
      come only from Continue with Basic, closing, and a timer. */
  function Handle(s: State, e: Event): (o: Outcome)
    ensures o.after.timers != s.timers ==> e == FinishPressed || e == TimerFired
    ensures e == FinishPressed && o.after != s ==> o.after.timers == s.timers + [s.selection]
    ensures o.after.code != s.code ==> e.CodeChanged? || e == CloseRequested || e == TimerFired
    ensures o.after.step == Success && s.step != Success ==>
      e == FinishPressed && s.step == TransactionCode && s.codeValid
    ensures o.calls != [] ==> e == ContinueBasicPressed || e == CloseRequested || e == TimerFired
  {
    match e
    case PremiumPressed =>
      if s.step == Packages then Outcome(s.(step := MpesaPayment, selection := Chosen(Premium)), [])
      else Outcome(s, [])
    case ElitePressed =>
      if s.step == Packages then Outcome(s.(step := MpesaPayment, selection := Chosen(Elite)), [])
      else Outcome(s, [])
    case ContinueBasicPressed =>
      if s.step == Packages then Outcome(s, [OnContinueBasic]) else Outcome(s, [])
    case ProceedPressed =>
      if s.step == MpesaPayment then Outcome(s.(step := TransactionCode), []) else Outcome(s, [])
    case BackPressed =>
      if s.step == MpesaPayment then Outcome(s.(step := Packages), [])
      else if s.step == TransactionCode then Outcome(s.(step := MpesaPayment), [])
      else Outcome(s, [])
    case CodeChanged(text) =>
      if s.step == TransactionCode then
        var code := PaymentCode.Entered(text);
        Outcome(s.(code := code, codeValid := PaymentCode.IsValid(code)), [])
      else Outcome(s, [])
    case FinishPressed =>
      if s.step == TransactionCode && s.codeValid then
        Outcome(s.(step := Success, timers := s.timers + [s.selection]), [])
      else Outcome(s, [])
    case CloseRequested =>
      Outcome(Reset(s.timers), [OnClose])
    case TimerFired =>
      if s.timers == [] then Outcome(s, [])
      else Outcome(Reset(s.timers[1..]), UpgradeCall(s.timers[0]) + [OnClose])
  }

  /** A sequence of events handled in order; the log is every call made. */
  function Run(s: State, es: seq<Event>): Outcome
  {
    if es == [] then Outcome(s, [])
    else
      var before := Run(s, es[..|es| - 1]);
      var last := Handle(before.after, es[|es| - 1]);
      Outcome(last.after, before.calls + last.calls)
  }

  /** What holds of every state the modal can reach: the flag tracks the
      code, the code fits the input, a package is chosen whenever the flow
      is past the package list, and every pending timer captured a package. */
  predicate Inv(s: State)
  {
    && s.codeValid == PaymentCode.IsValid(s.code)
    && PaymentCode.Utf16Length(s.code) <= PaymentCode.MaxLength
    && (s.step != Packages ==> s.selection.Chosen?)
    && (s.step == Success ==> s.timers != [])
    && (forall i :: 0 <= i < |s.timers| ==> s.timers[i].Chosen?)
  }

  // ---------------------------------------------------------------------
  // Single events

  lemma InitialIsValid()
    ensures Inv(Initial)
    ensures Initial.step == Packages && Initial.selection == NoPackage
    ensures Initial.code == "" && !Initial.codeValid
  {
  }

  lemma HandleKeepsInv(s: State, e: Event)
    requires Inv(s)
    ensures Inv(Handle(s, e).after)
  {
  }

  /** The amount shown for a chosen package is the price on its card; with
      no package it falls back to the Elite price. */
  lemma AmountMatchesCard(p: Package)
    ensures PackageAmount(Chosen(p)) == CardPrice(p)
    ensures PackageAmount(NoPackage) == CardPrice(Elite)
  {
  }

  /** Choosing a package from the list selects it and moves to the payment
      instructions; elsewhere the package buttons are not rendered. */
  lemma ChoosePackage(s: State, p: Package)
    ensures var o := Handle(s, if p == Premium then PremiumPressed else ElitePressed);
      && o.calls == []
      && (s.step == Packages ==>
            o.after.step == MpesaPayment && o.after.selection == Chosen(p)
            && o.after.code == s.code && o.after.codeValid == s.codeValid
            && o.after.timers == s.timers)
      && (s.step != Packages ==> o.after == s)
  {
  }

  /** "Continue with Basic Account" only forwards the host callback. */
  lemma ContinueBasicForwards(s: State)
    ensures Handle(s, ContinueBasicPressed).after == s
    ensures Handle(s, ContinueBasicPressed).calls == if s.step == Packages then [OnContinueBasic] else []
  {
  }

  /** Proceed and Back move one step along the flow and keep the selected
      package, the code and its flag. */
  lemma NavigationKeepsForm(s: State, e: Event)
    requires e == ProceedPressed || e == BackPressed
    ensures var o := Handle(s, e);
      && o.calls == []
      && o.after.selection == s.selection && o.after.code == s.code
      && o.after.codeValid == s.codeValid && o.after.timers == s.timers
      && o.after.step == (match (s.step, e)
           case (MpesaPayment, ProceedPressed) => TransactionCode
           case (MpesaPayment, BackPressed) => Packages
           case (TransactionCode, BackPressed) => MpesaPayment
           case _ => s.step)
  {
  }

  /** Editing the code is possible only on the code-entry layout; there it
      stores the longest start of the text that fits in 20 code units,
      recomputes the flag, and leaves the rest of the state alone. */
  lemma CodeEditRevalidates(s: State, text: string)
    requires Inv(s)
    ensures var o := Handle(s, CodeChanged(text));
      && o.calls == [] && Inv(o.after)
      && (s.step == TransactionCode ==>
            && o.after == s.(code := PaymentCode.Entered(text),
                             codeValid := PaymentCode.Utf16Length(text) >= PaymentCode.MinLength)
            && o.after.code <= text
            && (o.after.codeValid <==> PaymentCode.Utf16Length(text) >= PaymentCode.MinLength))
      && (s.step != TransactionCode ==> o.after == s)
  {
    PaymentCode.EnteredValidIffLongEnough(text);
  }

  /** Finish reaches Success exactly when the code is valid on the code-entry
      layout, and then schedules one timer holding the selected package;
      otherwise it does nothing. */
  lemma FinishNeedsValidCode(s: State)
    requires Inv(s)
    ensures var o := Handle(s, FinishPressed);
      && o.calls == []
      && (s.step == TransactionCode && PaymentCode.IsValid(s.code) ==>
            o.after.step == Success && o.after.timers == s.timers + [s.selection]
            && o.after.selection == s.selection && o.after.code == s.code)
      && (!(s.step == TransactionCode && PaymentCode.IsValid(s.code)) ==> o.after == s)
  {
  }

  /** No event other than an accepted Finish enters Success. */
  lemma OnlyFinishEntersSuccess(s: State, e: Event)
    requires Inv(s)
    requires s.step != Success && Handle(s, e).after.step == Success
    ensures e == FinishPressed && s.step == TransactionCode && PaymentCode.IsValid(s.code)
    ensures |Handle(s, e).after.timers| == |s.timers| + 1
  {
  }

  /** Closing from any step resets the form and calls `onClose` once; the
      pending timers stay pending. */
  lemma CloseResets(s: State)
    ensures var o := Handle(s, CloseRequested);
      && o.after.step == Packages && o.after.selection == NoPackage
      && o.after.code == "" && !o.after.codeValid
      && o.after.timers == s.timers
      && o.calls == [OnClose]
  {
  }

  /** A firing timer upgrades to the package it captured (Premium iff it
      captured Premium, Elite iff Elite), then performs the close reset and
      calls `onClose`. In a reachable state it always captured a package, so
      exactly one upgrade callback precedes the `onClose`. */
  lemma TimerUpgradesCapturedPackage(s: State)
    requires s.timers != []
    ensures var o := Handle(s, TimerFired);
      && (OnUpgradePremium in o.calls <==> s.timers[0] == Chosen(Premium))
      && (OnUpgradeElite in o.calls <==> s.timers[0] == Chosen(Elite))
      && o.calls[|o.calls| - 1] == OnClose
      && o.after == Reset(s.timers[1..])
    ensures Inv(s) ==>
      (Handle(s, TimerFired).calls == UpgradeCall(s.timers[0]) + [OnClose]
       && |Handle(s, TimerFired).calls| == 2)
  {
  }

  // ---------------------------------------------------------------------
  // Sequences of events

  lemma {:induction false} RunKeepsInv(s: State, es: seq<Event>)
    requires Inv(s)
    ensures Inv(Run(s, es).after)
    decreases |es|
  {
    if es != [] {
      RunKeepsInv(s, es[..|es| - 1]);
      HandleKeepsInv(Run(s, es[..|es| - 1]).after, es[|es| - 1]);
    }
  }

  /** Success is reached only through a Finish pressed on the code-entry
      layout with a valid code. */
  lemma {:induction false} SuccessNeedsValidCode(s: State, es: seq<Event>)
    requires Inv(s) && s.step != Success
    requires Run(s, es).after.step == Success
    ensures exists k ::
      (0 <= k < |es| && es[k] == FinishPressed
       && Run(s, es[..k]).after.step == TransactionCode
       && PaymentCode.IsValid(Run(s, es[..k]).after.code))
    decreases |es|
  {
    var n := |es| - 1;
    var before := Run(s, es[..n]).after;
    RunKeepsInv(s, es[..n]);
    if before.step == Success {
      SuccessNeedsValidCode(s, es[..n]);
      var k :| 0 <= k < n && es[..n][k] == FinishPressed
        && Run(s, es[..n][..k]).after.step == TransactionCode
        && PaymentCode.IsValid(Run(s, es[..n][..k]).after.code);
      assert es[..n][..k] == es[..k];
    } else {
      OnlyFinishEntersSuccess(before, es[n]);
      assert es[n] == FinishPressed && before.step == TransactionCode
        && PaymentCode.IsValid(before.code);
    }
  }

  /** Every upgrade callback in the log is immediately followed by `onClose`. */
  lemma {:induction false} UpgradeThenClose(s: State, es: seq<Event>)
    ensures CallLog.EachFollowedBy(Run(s, es).calls, IsUpgrade, OnClose)
    decreases |es|
  {
    if es != [] {
      UpgradeThenClose(s, es[..|es| - 1]);
      var last := Handle(Run(s, es[..|es| - 1]).after, es[|es| - 1]);
      assert CallLog.EachFollowedBy(last.calls, IsUpgrade, OnClose);
      CallLog.EachFollowedByAppend(Run(s, es[..|es| - 1]).calls, last.calls, IsUpgrade, OnClose);
    }
  }

  /** One event spends at most the timers it fires and adds at most the
      one an accepted Finish schedules. */
  lemma HandleSpendsTimers(s: State, e: Event)
    ensures CallLog.Count(Handle(s, e).calls, IsUpgrade) + |Handle(s, e).after.timers|
      <= |s.timers| + (if IsFinish(e) then 1 else 0)
  {
    var o := Handle(s, e);
    if e == TimerFired && s.timers != [] {
      assert CallLog.Count([OnClose], IsUpgrade) == 0;
      CallLog.CountAppend(UpgradeCall(s.timers[0]), [OnClose], IsUpgrade);
    } else {
      assert forall i :: 0 <= i < |o.calls| ==> !IsUpgrade(o.calls[i]);
    }
  }

  /** Upgrade callbacks never outnumber accepted Finish presses: each one
      spends a pending timer, and only Finish schedules one. */
  lemma {:induction false} UpgradesNeedFinishes(s: State, es: seq<Event>)
    ensures CallLog.Count(Run(s, es).calls, IsUpgrade) + |Run(s, es).after.timers|
      <= |s.timers| + CallLog.Count(es, IsFinish)
    decreases |es|
  {
    if es != [] {
      var n := |es| - 1;
      var before := Run(s, es[..n]);
      var last := Handle(before.after, es[n]);
      assert Run(s, es) == Outcome(last.after, before.calls + last.calls);
      UpgradesNeedFinishes(s, es[..n]);
      CallLog.CountAppend(before.calls, last.calls, IsUpgrade);
      assert es == es[..n] + [es[n]];
      CallLog.CountAppend(es[..n], [es[n]], IsFinish);
      HandleSpendsTimers(before.after, es[n]);
    }
  }

  /** From a freshly mounted modal, no upgrade is granted without Finish. */
  lemma UpgradesFromInitial(es: seq<Event>)
    ensures CallLog.Count(Run(Initial, es).calls, IsUpgrade) <= CallLog.Count(es, IsFinish)
  {
    UpgradesNeedFinishes(Initial, es);
  }

  // ---------------------------------------------------------------------
  // Scenarios

  /** Running one more event continues from where the shorter run ended. */
  lemma RunExtend(s: State, es: seq<Event>, e: Event, longer: seq<Event>, before: Outcome)
    requires longer == es + [e] && Run(s, es) == before
    ensures Run(s, longer)
      == Outcome(Handle(before.after, e).after, before.calls + Handle(before.after, e).calls)
  {
    assert longer[..|es|] == es;
  }

  /** Elite chosen, the Elite price shown, and a six-character code refused. */
  lemma EliteShortCodeRefused()
    ensures Run(Initial, [ElitePressed]).after.selection == Chosen(Elite)
    ensures PackageAmount(Run(Initial, [ElitePressed]).after.selection) == CardPrice(Elite)
    ensures Run(Initial, [ElitePressed, ProceedPressed, CodeChanged("ABC123"), FinishPressed])
      == Outcome(State(TransactionCode, Chosen(Elite), "ABC123", false, []), [])
  {
    var e0, e1, e2, e3 := ElitePressed, ProceedPressed, CodeChanged("ABC123"), FinishPressed;
    PaymentCode.ShortPlainTextKept("ABC123");
    ReachCodeEntry(e0, Elite);
    RunExtend(Initial, [e0, e1], e2, [e0, e1, e2],
      Outcome(State(TransactionCode, Chosen(Elite), "", false, []), []));
    RunExtend(Initial, [e0, e1, e2], e3, [e0, e1, e2, e3],
      Outcome(State(TransactionCode, Chosen(Elite), "ABC123", false, []), []));
  }

  /** Continuing from there: a ten-character code is accepted and Finish
      enters the success layout with one Elite timer pending. */
  lemma EliteCodeAccepted()
    ensures Run(Initial, [ElitePressed, ProceedPressed, CodeChanged("ABC123"), FinishPressed,
                          CodeChanged("ABC1234567"), FinishPressed])
      == Outcome(State(Success, Chosen(Elite), "ABC1234567", true, [Chosen(Elite)]), [])
  {
    var e0, e1, e2, e3, e4, e5 := ElitePressed, ProceedPressed, CodeChanged("ABC123"),
      FinishPressed, CodeChanged("ABC1234567"), FinishPressed;
    PaymentCode.ShortPlainTextKept("ABC1234567");
    EliteShortCodeRefused();
    RunExtend(Initial, [e0, e1, e2, e3], e4, [e0, e1, e2, e3, e4],
      Outcome(State(TransactionCode, Chosen(Elite), "ABC123", false, []), []));
    RunExtend(Initial, [e0, e1, e2, e3, e4], e5, [e0, e1, e2, e3, e4, e5],
      Outcome(State(TransactionCode, Chosen(Elite), "ABC1234567", true, []), []));
  }

  /** The pending timer then upgrades to Elite once and resets the modal. */
  lemma EliteScenario()
    ensures Run(Initial, [ElitePressed, ProceedPressed, CodeChanged("ABC123"), FinishPressed,
                          CodeChanged("ABC1234567"), FinishPressed, TimerFired])
      == Outcome(Initial, [OnUpgradeElite, OnClose])
  {
    var e0, e1, e2, e3, e4, e5, e6 := ElitePressed, ProceedPressed, CodeChanged("ABC123"),
      FinishPressed, CodeChanged("ABC1234567"), FinishPressed, TimerFired;
    EliteCodeAccepted();
    RunExtend(Initial, [e0, e1, e2, e3, e4, e5], e6, [e0, e1, e2, e3, e4, e5, e6],
      Outcome(State(Success, Chosen(Elite), "ABC1234567", true, [Chosen(Elite)]), []));
  }

  /** Choosing a package and proceeding reaches code entry with that
      package selected and no code yet. */
  lemma ReachCodeEntry(first: Event, p: Package)
    requires first == (if p == Premium then PremiumPressed else ElitePressed)
    ensures Run(Initial, [first, ProceedPressed])
      == Outcome(State(TransactionCode, Chosen(p), "", false, []), [])
  {
    RunExtend(Initial, [], first, [first],
      Outcome(Initial, []));
    RunExtend(Initial, [first], ProceedPressed, [first, ProceedPressed],
      Outcome(State(MpesaPayment, Chosen(p), "", false, []), []));
  }

  /** A ten-character code and Finish reach the success layout with one
      timer pending for Elite. */
  lemma EliteFinished()
    ensures Run(Initial, [ElitePressed, ProceedPressed, CodeChanged("ABCDEFGHIJ"), FinishPressed])
      == Outcome(State(Success, Chosen(Elite), "ABCDEFGHIJ", true, [Chosen(Elite)]), [])
  {
    var e0, e1, e2, e3 := ElitePressed, ProceedPressed, CodeChanged("ABCDEFGHIJ"), FinishPressed;
    PaymentCode.ShortPlainTextKept("ABCDEFGHIJ");
    ReachCodeEntry(e0, Elite);
    RunExtend(Initial, [e0, e1], e2, [e0, e1, e2],
      Outcome(State(TransactionCode, Chosen(Elite), "", false, []), []));
    RunExtend(Initial, [e0, e1, e2], e3, [e0, e1, e2, e3],
      Outcome(State(TransactionCode, Chosen(Elite), "ABCDEFGHIJ", true, []), []));
  }

  /** The timer is never cancelled: closing on the success layout calls
      `onClose`, and the still-pending timer later upgrades and calls
      `onClose` a second time. */
  lemma LateUpgradeAfterClose()
    ensures Run(Initial, [ElitePressed, ProceedPressed, CodeChanged("ABCDEFGHIJ"), FinishPressed,
                          CloseRequested, TimerFired]).calls == [OnClose, OnUpgradeElite, OnClose]
  {
    var e0, e1, e2, e3, e4, e5 := ElitePressed, ProceedPressed, CodeChanged("ABCDEFGHIJ"),
      FinishPressed, CloseRequested, TimerFired;
    EliteFinished();
    RunExtend(Initial, [e0, e1, e2, e3], e4, [e0, e1, e2, e3, e4],
      Outcome(State(Success, Chosen(Elite), "ABCDEFGHIJ", true, [Chosen(Elite)]), []));
    RunExtend(Initial, [e0, e1, e2, e3, e4], e5, [e0, e1, e2, e3, e4, e5],
      Outcome(Reset([Chosen(Elite)]), [OnClose]));
  }

  /** Going back twice from code entry returns to the package list with the
      code and its verdict kept. */
  lemma BackTwiceKeepsCode()
    ensures Run(Initial, [PremiumPressed, ProceedPressed, CodeChanged("QWERTYUIOP"), BackPressed,
                          BackPressed])
      == Outcome(State(Packages, Chosen(Premium), "QWERTYUIOP", true, []), [])
  {
    var e0, e1, e2, e3, e4 := PremiumPressed, ProceedPressed, CodeChanged("QWERTYUIOP"),
      BackPressed, BackPressed;
    PaymentCode.ShortPlainTextKept("QWERTYUIOP");
    ReachCodeEntry(e0, Premium);
    RunExtend(Initial, [e0, e1], e2, [e0, e1, e2],
      Outcome(State(TransactionCode, Chosen(Premium), "", false, []), []));
    RunExtend(Initial, [e0, e1, e2], e3, [e0, e1, e2, e3],
      Outcome(State(TransactionCode, Chosen(Premium), "QWERTYUIOP", true, []), []));
    RunExtend(Initial, [e0, e1, e2, e3], e4, [e0, e1, e2, e3, e4],
      Outcome(State(MpesaPayment, Chosen(Premium), "QWERTYUIOP", true, []), []));
  }

  /** Back from code entry keeps the code: after going back to the package
      list and choosing again, Finish is accepted without retyping. */
  lemma BackKeepsCode()
    ensures Run(Initial, [PremiumPressed, ProceedPressed, CodeChanged("QWERTYUIOP"), BackPressed,
                          BackPressed, PremiumPressed, ProceedPressed, FinishPressed])
      .after.step == Success
  {
    var e0, e1, e2, e3, e4, e5, e6, e7 := PremiumPressed, ProceedPressed, CodeChanged("QWERTYUIOP"),
      BackPressed, BackPressed, PremiumPressed, ProceedPressed, FinishPressed;
    BackTwiceKeepsCode();
    RunExtend(Initial, [e0, e1, e2, e3, e4], e5, [e0, e1, e2, e3, e4, e5],
      Outcome(State(Packages, Chosen(Premium), "QWERTYUIOP", true, []), []));
    RunExtend(Initial, [e0, e1, e2, e3, e4, e5], e6, [e0, e1, e2, e3, e4, e5, e6],
      Outcome(State(MpesaPayment, Chosen(Premium), "QWERTYUIOP", true, []), []));
    RunExtend(Initial, [e0, e1, e2, e3, e4, e5, e6], e7, [e0, e1, e2, e3, e4, e5, e6, e7],
      Outcome(State(TransactionCode, Chosen(Premium), "QWERTYUIOP", true, []), []));
  }

  // ---------------------------------------------------------------------
  // The component

  /** One mounted modal. Its fields are the component's hook state; the
      handlers mutate them as the setters do. `calls` records the host
      callbacks invoked so far. */
  class Modal {
    var step: Step
    var selection: Selection
    var code: string
    var codeValid: bool
    var timers: seq<Selection>
    ghost var calls: seq<Callback>

    function Snapshot(): State
      reads this
    {
      State(step, selection, code, codeValid, timers)
    }

    ghost predicate Valid()
      reads this
    {
      Inv(Snapshot())
    }

    constructor ()
      ensures Valid() && Snapshot() == Initial && calls == []
    {
      step, selection, code, codeValid, timers := Packages, NoPackage, "", false, [];
      calls := [];
    }

    /** `handlePremiumButtonPress`. */
    method ChoosePremium()
      requires Valid()
      modifies this
      ensures Valid()
      ensures Snapshot() == Handle(old(Snapshot()), PremiumPressed).after
      ensures calls == old(calls) + Handle(old(Snapshot()), PremiumPressed).calls
    {
      if step == Packages {
        selection := Chosen(Premium);
        step := MpesaPayment;
      }
    }

    /** `handleEliteButtonPress`. */
    method ChooseElite()
      requires Valid()
      modifies this
      ensures Valid()
      ensures Snapshot() == Handle(old(Snapshot()), ElitePressed).after
      ensures calls == old(calls) + Handle(old(Snapshot()), ElitePressed).calls
    {
      if step == Packages {
        selection := Chosen(Elite);
        step := MpesaPayment;
      }
    }

    /** "Continue with Basic Account": forwards `onContinueBasic`. */
    method ContinueBasic()
      requires Valid()
      modifies this
      ensures Valid()
      ensures Snapshot() == old(Snapshot())
      ensures calls == old(calls) + Handle(old(Snapshot()), ContinueBasicPressed).calls
    {
      if step == Packages {
        calls := calls + [OnContinueBasic];
      }
    }

    /** Proceed on the payment-instructions layout. */
    method Proceed()
      requires Valid()
      modifies this
      ensures Valid()
      ensures Snapshot() == Handle(old(Snapshot()), ProceedPressed).after
      ensures calls == old(calls)
    {
      if step == MpesaPayment {
        step := TransactionCode;
      }
    }

    /** Back on the payment-instructions or code-entry layout. */
    method Back()
      requires Valid()
      modifies this
      ensures Valid()
      ensures Snapshot() == Handle(old(Snapshot()), BackPressed).after
      ensures calls == old(calls)
    {
      if step == MpesaPayment {
        step := Packages;
      } else if step == TransactionCode {
        step := MpesaPayment;
      }
    }

    /** `onChangeText` of the code input, with the validity effect applied. */
    method ChangeCode(text: string)
      requires Valid()
      modifies this
      ensures Valid()
      ensures Snapshot() == Handle(old(Snapshot()), CodeChanged(text)).after
      ensures calls == old(calls)
    {
      if step == TransactionCode {
        code := PaymentCode.Entered(text);
        codeValid := PaymentCode.IsValid(code);
      }
    }

    /** `handleUpgradeSuccess`, reachable only through the enabled Finish
      button: enters Success and schedules the timer. */
    method UpgradeSuccess()
      requires Valid()
      modifies this
      ensures Valid()
      ensures Snapshot() == Handle(old(Snapshot()), FinishPressed).after
      ensures calls == old(calls)
    {
      if step == TransactionCode && codeValid {
        step := Success;
        timers := timers + [selection];
      }
    }

    /** `handleClose`. */
    method Close()
      requires Valid()
      modifies this
      ensures Valid()
      ensures Snapshot() == Handle(old(Snapshot()), CloseRequested).after
      ensures calls == old(calls) + [OnClose]
    {
      step := Packages;
      selection := NoPackage;
      code := "";
      codeValid := false;
      calls := calls + [OnClose];
    }

    /** The oldest pending timer runs its callback. */
    method FireTimer()
      requires Valid()
      modifies this
      ensures Valid()
      ensures Snapshot() == Handle(old(Snapshot()), TimerFired).after
      ensures calls == old(calls) + Handle(old(Snapshot()), TimerFired).calls
    {
      ghost var before := Snapshot();
      HandleKeepsInv(before, TimerFired);
      if timers != [] {
        var captured := timers[0];
        timers := timers[1..];
        if captured == Chosen(Premium) {
          calls := calls + [OnUpgradePremium];
        } else if captured == Chosen(Elite) {
          calls := calls + [OnUpgradeElite];
        }
        step, selection, code, codeValid := Packages, NoPackage, "", false;
        calls := calls + [OnClose];
      }
    }
  }
}

# Payment-flow step controllers of the activation and withdrawal-package modals

This project models the step controllers of two React Native payment modals
in a survey-earnings app and proves properties about them.

- The **withdrawal-packages modal** moves through four layouts:
  `packages → mpesa-payment → transaction-code → success`. On the first
  layout the user chooses the Premium (KES 350) or Elite (KES 650) package.
- The **account-activation modal** goes through the same four layouts. Its
  first layout is `activation`, and it has a single offer.

In both modals the user pays outside the app, to an M-Pesa till number, and
then pastes the transaction code. The code is accepted on its length alone:
at least 10. The input field keeps at most 20. Both lengths are JavaScript
string lengths, counted in UTF-16 code units, so a character outside the
Basic Multilingual Plane (an emoji, say) counts as two. Finish enters
`success` and starts a 2000 ms `setTimeout`. When the timer runs, it invokes
the host's completion callback (`onUpgradePremium`, `onUpgradeElite` or
`onActivate`), resets the form and calls `onClose`. Closing the modal (X
button, "Not Now", a backdrop tap or the hardware back button) resets the
form and calls `onClose`.

Each modal is a module with two layers:

- a pure layer: a `State` datatype, a transition function `Handle(state,
  event)` that returns the new state and the host callbacks invoked, `Run`
  over a sequence of events, and an invariant `Inv`;
- a class `Modal`, whose fields are the component's hook state and whose
  methods are its handlers. Each method changes the fields in place and is
  proved to produce `Handle`'s result. A ghost field `calls` logs the host
  callbacks.

Each button event acts only in the step whose layout renders that button. In
any other step it leaves everything unchanged. `PaymentCode` holds the
code-length rule that both modals share. `CallLog` holds counting facts about
callback logs.

In these places the model follows the code:

- **The timer is never cancelled.** Neither component clears its timeout.
  Closing on the success layout keeps the timer pending. When it fires later,
  it still invokes the completion callback and calls `onClose` a second time.
  The timer's closure captured the package selected when Finish was pressed,
  so the upgrade still goes to that package after the close reset
  (`LateUpgradeAfterClose`, `LateActivationAfterClose`). Pending timers are
  therefore a queue. After closing, the modal can be opened again and
  finished again while the first timer is still pending.
- **Back keeps the transaction code.** Leaving the code-entry layout with
  Back does not clear the code, and neither does going back to the package
  list (`BackKeepsCode`). Only a close clears it.
- **State is reset only on close**, not when the modal is shown again.

## Model

| member | source | states |
|---|---|---|
| `PaymentCode.Utf16Length` | components/ui/WithdrawalPackagesModal.tsx:73 | A string's `.length` lies between its number of characters and twice that, and equals it when every character is in the Basic Multilingual Plane. |
| `PaymentCode.IsValid` | components/ui/WithdrawalPackagesModal.tsx:72-74 | A code is valid when its length is at least 10. So a valid code has at least 5 characters, and any code of 10 or more characters is valid. |
| `PaymentCode.ShowsLengthHint` | components/ui/WithdrawalPackagesModal.tsx:376-380 | The "at least 10 characters" hint shows iff the code is non-empty and not valid. |
| `PaymentCode.Entered` | components/ui/WithdrawalPackagesModal.tsx:366-374 | The input keeps the longest prefix of the typed text whose length is at most 20. It keeps the whole text when that fits. Otherwise one more character would push the length past 20. |
| `PaymentCode.PrefixNoLonger` | components/ui/WithdrawalPackagesModal.tsx:366-374 | A prefix of a text is never longer than the text. |
| `PaymentCode.EnteredValidIffLongEnough` | components/ui/WithdrawalPackagesModal.tsx:72-74 | After capping, the code is valid iff the typed text had length at least 10. A valid code has length 10 to 20. |
| `WithdrawalPackages.PackageAmount` | components/ui/WithdrawalPackagesModal.tsx:105-107 | The amount to pay is "350" iff Premium is selected, and "650" otherwise, including when nothing is selected. |
| `WithdrawalPackages.UpgradeCall` | components/ui/WithdrawalPackagesModal.tsx:95-99 | A timer makes at most one upgrade call: `onUpgradePremium` iff it captured Premium, `onUpgradeElite` iff it captured Elite, and none iff it captured no package. |
| `WithdrawalPackages.Handle` | components/ui/WithdrawalPackagesModal.tsx:83-399 | One event changes the pending timers only if it is Finish, which appends the selection, or a timer firing. It changes the code only if it is a code edit, a close or a timer. It enters `success` only as Finish on `transaction-code` with a valid code. Callbacks come only from "Continue with Basic Account", a close or a timer. |
| `WithdrawalPackages.AmountMatchesCard` | components/ui/WithdrawalPackagesModal.tsx:186-243 | The amount shown for a chosen package equals the price on its card. With no selection, the Elite price is shown. |
| `WithdrawalPackages.InitialIsValid` | components/ui/WithdrawalPackagesModal.tsx:66-69 | The initial state is `packages`, no package, code `""`, flag false, and it satisfies the invariant. |
| `WithdrawalPackages.HandleKeepsInv` | components/ui/WithdrawalPackagesModal.tsx:72-159 | Every event preserves the invariant: the flag equals the length rule, the code has length at most 20, a package is selected past the package list, `success` has a timer pending, and every pending timer captured a package. |
| `WithdrawalPackages.ChoosePackage` | components/ui/WithdrawalPackagesModal.tsx:143-159 | On `packages`, choosing Premium or Elite selects that package and moves to `mpesa-payment`. Code, flag and timers are unchanged, and no callback is made. In other steps it is a no-op. |
| `WithdrawalPackages.ContinueBasicForwards` | components/ui/WithdrawalPackagesModal.tsx:281-286 | "Continue with Basic Account" calls `onContinueBasic` once on `packages` and leaves the state unchanged. |
| `WithdrawalPackages.NavigationKeepsForm` | components/ui/WithdrawalPackagesModal.tsx:329-399 | Proceed goes from `mpesa-payment` to `transaction-code`. Back goes from `mpesa-payment` to `packages` and from `transaction-code` to `mpesa-payment`. Both keep selection, code, flag and timers. |
| `WithdrawalPackages.CodeEditRevalidates` | components/ui/WithdrawalPackagesModal.tsx:366-374 | Editing the code has an effect only on `transaction-code`. There the new state is the old one with the code replaced by the capped text, and the flag set iff the text has length at least 10. Nothing else changes. |
| `WithdrawalPackages.FinishNeedsValidCode` | components/ui/WithdrawalPackagesModal.tsx:384-392 | Finish with a valid code on `transaction-code` enters `success` and appends one timer that holds the selected package. In every other case it is a no-op. |
| `WithdrawalPackages.OnlyFinishEntersSuccess` | components/ui/WithdrawalPackagesModal.tsx:92-94 | Any event that enters `success` is Finish on `transaction-code` with a valid code, and it adds exactly one pending timer. |
| `WithdrawalPackages.CloseResets` | components/ui/WithdrawalPackagesModal.tsx:83-89 | Close from any step resets to `packages`, no package, `""` and false, keeps the pending timers, and calls `onClose` exactly once. |
| `WithdrawalPackages.TimerUpgradesCapturedPackage` | components/ui/WithdrawalPackagesModal.tsx:94-101 | A firing timer calls `onUpgradePremium` iff it captured Premium and `onUpgradeElite` iff it captured Elite, then resets and calls `onClose` last. In a reachable state this is exactly the upgrade call followed by `onClose`. |
| `WithdrawalPackages.RunKeepsInv` | components/ui/WithdrawalPackagesModal.tsx:66-74 | Any sequence of events from a state satisfying the invariant reaches a state that satisfies it. |
| `WithdrawalPackages.SuccessNeedsValidCode` | components/ui/WithdrawalPackagesModal.tsx:384-392 | A run that reaches `success` from another step contains a Finish pressed on `transaction-code` while the code was valid. |
| `WithdrawalPackages.UpgradeThenClose` | components/ui/WithdrawalPackagesModal.tsx:94-101 | In every run's callback log, each upgrade callback is immediately followed by `onClose`. |
| `WithdrawalPackages.HandleSpendsTimers` | components/ui/WithdrawalPackagesModal.tsx:92-101 | One event makes at most as many upgrade calls as the timers it consumes. Only Finish adds a timer. |
| `WithdrawalPackages.UpgradesNeedFinishes` | components/ui/WithdrawalPackagesModal.tsx:92-101 | Over any run, upgrade calls plus the timers still pending never exceed the timers pending at the start plus the Finish presses. |
| `WithdrawalPackages.UpgradesFromInitial` | components/ui/WithdrawalPackagesModal.tsx:92-101 | From a freshly mounted modal, there are never more upgrade calls than Finish presses. |
| `WithdrawalPackages.ReachCodeEntry` | components/ui/WithdrawalPackagesModal.tsx:143-159 | Choosing a package and then Proceed reaches `transaction-code` with that package selected, an empty code and no callback. |
| `WithdrawalPackages.EliteShortCodeRefused` | components/ui/WithdrawalPackagesModal.tsx:152-159 | Choosing Elite selects it and shows the Elite card price. A 6-character code leaves Finish disabled, and the step stays `transaction-code`. |
| `WithdrawalPackages.EliteCodeAccepted` | components/ui/WithdrawalPackagesModal.tsx:384-392 | In the same run, a 10-character code lets Finish enter `success` with one Elite timer pending. |
| `WithdrawalPackages.EliteScenario` | components/ui/WithdrawalPackagesModal.tsx:92-101 | The timer then calls `onUpgradeElite` and `onClose` and returns the modal to its initial state. |
| `WithdrawalPackages.LateUpgradeAfterClose` | components/ui/WithdrawalPackagesModal.tsx:94-101 | Closing on `success` and then letting the timer fire gives the log `onClose, onUpgradeElite, onClose`: the upgrade arrives after the dismissal. |
| `WithdrawalPackages.BackTwiceKeepsCode` | components/ui/WithdrawalPackagesModal.tsx:337-399 | Going back twice from code entry returns to the package list with the typed code and its flag kept. |
| `WithdrawalPackages.BackKeepsCode` | components/ui/WithdrawalPackagesModal.tsx:394-399 | After choosing the package again, Finish is accepted without retyping. |
| `WithdrawalPackages.Modal.constructor` | components/ui/WithdrawalPackagesModal.tsx:66-69 | The hook state starts at the initial state with an empty callback log. |
| `WithdrawalPackages.Modal.ChoosePremium` | components/ui/WithdrawalPackagesModal.tsx:143-150 | Updates the fields as `Handle` does for the Premium button and keeps the invariant. |
| `WithdrawalPackages.Modal.ChooseElite` | components/ui/WithdrawalPackagesModal.tsx:152-159 | Updates the fields as `Handle` does for the Elite button and keeps the invariant. |
| `WithdrawalPackages.Modal.ContinueBasic` | components/ui/WithdrawalPackagesModal.tsx:281-286 | Leaves the state unchanged. On `packages` it appends `onContinueBasic` to the log. |
| `WithdrawalPackages.Modal.Proceed` | components/ui/WithdrawalPackagesModal.tsx:329-335 | Moves the step as `Handle` does for Proceed, with no callback. |
| `WithdrawalPackages.Modal.Back` | components/ui/WithdrawalPackagesModal.tsx:337-399 | Moves the step as `Handle` does for Back on either layout, with no callback. |
| `WithdrawalPackages.Modal.ChangeCode` | components/ui/WithdrawalPackagesModal.tsx:366-374 | Stores the capped code and its validity flag as `Handle` does. |
| `WithdrawalPackages.Modal.UpgradeSuccess` | components/ui/WithdrawalPackagesModal.tsx:92-102 | Enters `success` and queues a timer holding the selection, only from `transaction-code` with the flag set. |
| `WithdrawalPackages.Modal.Close` | components/ui/WithdrawalPackagesModal.tsx:83-89 | Resets the four hook fields, keeps the timers, and appends exactly one `onClose`. |
| `WithdrawalPackages.Modal.FireTimer` | components/ui/WithdrawalPackagesModal.tsx:94-101 | Dequeues the oldest timer, appends its upgrade callback and `onClose`, and resets the form. |
| `AccountActivation.InitialIsValid` | components/ui/AccountActivationModal.tsx:49-51 | The initial state is `activation`, code `""`, flag false, and it satisfies the invariant. |
| `AccountActivation.HandleKeepsInv` | components/ui/AccountActivationModal.tsx:54-79 | Every event preserves the invariant: the flag equals the length rule, the code has length at most 20, and `success` has a timer pending. |
| `AccountActivation.Handle` | components/ui/AccountActivationModal.tsx:65-275 | One event changes the number of pending timers only if it is Finish, which adds one, or a timer firing. It changes the code only if it is a code edit, a close or a timer. It enters `success` only as Finish on `transaction-code` with a valid code. Callbacks come only from a close or a timer. |
| `AccountActivation.ActivateStartsPayment` | components/ui/AccountActivationModal.tsx:159-165 | "Activate Account" moves `activation` to `mpesa-payment` and changes nothing else. In other steps it is a no-op. |
| `AccountActivation.NavigationKeepsCode` | components/ui/AccountActivationModal.tsx:210-275 | Proceed goes from `mpesa-payment` to `transaction-code`. Back goes from `mpesa-payment` to `activation` and from `transaction-code` to `mpesa-payment`. Both keep the code, flag and timers. |
| `AccountActivation.CodeEditRevalidates` | components/ui/AccountActivationModal.tsx:242-250 | Editing the code has an effect only on `transaction-code`. There the new state is the old one with the code replaced by the capped text, and the flag set iff the text has length at least 10. Nothing else changes. |
| `AccountActivation.FinishNeedsValidCode` | components/ui/AccountActivationModal.tsx:259-268 | Finish with a valid code on `transaction-code` enters `success` and adds one pending timer. In every other case it is a no-op. |
| `AccountActivation.OnlyFinishEntersSuccess` | components/ui/AccountActivationModal.tsx:73-75 | Any event that enters `success` is Finish on `transaction-code` with a valid code, and it adds exactly one timer. |
| `AccountActivation.CloseResets` | components/ui/AccountActivationModal.tsx:65-70 | Close from any step, including "Not Now", resets to `activation`, `""` and false, keeps the pending timers, and calls `onClose` exactly once. |
| `AccountActivation.TimerActivatesThenCloses` | components/ui/AccountActivationModal.tsx:75-78 | A firing timer calls `onActivate` exactly once, strictly before the `onClose` of the reset that follows. |
| `AccountActivation.RunKeepsInv` | components/ui/AccountActivationModal.tsx:49-56 | Any sequence of events from a state satisfying the invariant reaches a state that satisfies it. |
| `AccountActivation.SuccessNeedsValidCode` | components/ui/AccountActivationModal.tsx:259-268 | A run that reaches `success` from another step contains a Finish pressed on `transaction-code` while the code was valid. |
| `AccountActivation.ActivateThenClose` | components/ui/AccountActivationModal.tsx:75-78 | In every run's callback log, each `onActivate` is immediately followed by `onClose`. |
| `AccountActivation.HandleSpendsTimers` | components/ui/AccountActivationModal.tsx:73-79 | One event makes at most as many `onActivate` calls as the timers it consumes. Only Finish adds a timer. |
| `AccountActivation.ActivationsNeedFinishes` | components/ui/AccountActivationModal.tsx:73-79 | Over any run, `onActivate` calls plus the timers still pending never exceed the timers pending at the start plus the Finish presses. |
| `AccountActivation.ActivationsFromInitial` | components/ui/AccountActivationModal.tsx:73-79 | From a freshly mounted modal, there are never more `onActivate` calls than Finish presses. |
| `AccountActivation.ActivationFinished` | components/ui/AccountActivationModal.tsx:259-268 | A 10-character code and Finish reach `success` with one timer pending. |
| `AccountActivation.LateActivationAfterClose` | components/ui/AccountActivationModal.tsx:65-79 | Closing on `success` and then letting the timer fire gives the log `onClose, onActivate, onClose`: the activation arrives after the dismissal. |
| `AccountActivation.Modal.constructor` | components/ui/AccountActivationModal.tsx:49-51 | The hook state starts at the initial state with an empty callback log. |
| `AccountActivation.Modal.Activate` | components/ui/AccountActivationModal.tsx:160-165 | Moves the step as `Handle` does for "Activate Account", with no callback. |
| `AccountActivation.Modal.Proceed` | components/ui/AccountActivationModal.tsx:210-216 | Moves the step as `Handle` does for Proceed, with no callback. |
| `AccountActivation.Modal.Back` | components/ui/AccountActivationModal.tsx:218-275 | Moves the step as `Handle` does for Back on either layout, with no callback. |
| `AccountActivation.Modal.ChangeCode` | components/ui/AccountActivationModal.tsx:242-250 | Stores the capped code and its validity flag as `Handle` does. |
| `AccountActivation.Modal.ActivationSuccess` | components/ui/AccountActivationModal.tsx:73-79 | Enters `success` and adds a pending timer, only from `transaction-code` with the flag set. |
| `AccountActivation.Modal.Close` | components/ui/AccountActivationModal.tsx:65-70 | Resets the three hook fields, keeps the timers, and appends exactly one `onClose`. |
| `AccountActivation.Modal.FireTimer` | components/ui/AccountActivationModal.tsx:75-78 | Consumes one pending timer, appends `onActivate` and then `onClose`, and resets the form. |

## Left out

- Animations are not modelled: reanimated shared values, `withTiming`, `withSpring`, `withSequence` and their durations and easing. They are presentation only and work on floating-point values.
- `getFontSize`, `getSpacing` and the style sheets are not modelled. They are layout code with floating-point multipliers.
- `copyTillNumber` is not modelled. It only calls the clipboard and alert APIs. The till number `5619610` is static text.
- The timer's wall-clock delay is not modelled. A timer is an entry in a first-in-first-out queue, and the event `TimerFired` runs the oldest one. All timers use the same 2000 ms delay, so they fire in the order they were scheduled.
- React's render timing is not modelled. In the code, an effect sets `isCodeValid` one render after the code changes. Here the flag is recomputed within the same edit. Two Finish presses before a re-render are also not modelled: Finish is accepted only on the code-entry layout.
- The `visible` prop and mounting are not modelled. The modal is assumed to stay mounted between shows. Events other than `TimerFired` happen only while it is visible.
- PaymentCode.Entered: when the 20th code unit would fall inside a surrogate pair, the model keeps the shorter prefix and never splits the pair. What the native text input does in that case depends on the platform.
- `autoCapitalize="characters"` is not modelled. It only changes the keyboard; the text is stored as received.
- `currentBalance`, `useRouter` and the rendered text are not modelled, including the fixed "KSH 200" on the activation payment layout. The components receive them or render them and compute nothing from them.
- components/ui/EarningsUpgradeModal.tsx is not part of this model. It is stateless presentation that forwards host callbacks. Its only computation formats a floating-point balance.
- components/ui/PaymentWebView.tsx is not part of this model. It always renders `null`, and its loading state and success handler are never used.

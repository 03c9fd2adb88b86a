# ATM state machine

A Dafny model of the ATM of `final-project/state-machine-atm/src/atm.rs`. The ATM is a
pure, total transition function `next_state(state, action)`.

- The state is the `Atm` record. It holds the cash inside, the authentication phase
  (`Waiting`, `Authenticating(pin_hash)`, `Authenticated`) and the keystroke register.
- An action is a card swipe carrying the card's PIN fingerprint, or a key press. The keys
  are `One` to `Four` and `Enter`.
- A swipe while waiting starts authentication. Digits are collected in the register once
  a card is in.
- `Enter` while authenticating checks the PIN. The machine becomes authenticated if the
  fingerprints agree and waits again if they do not.
- `Enter` once authenticated withdraws the typed amount if the machine holds that much.
  Either way the machine then waits again.
- Every other pair of phase and action leaves the state unchanged.

Files and modules:

- `base.dfy` (`Base`): Rust's `u64` as the subset type `U64`, and `Option`.
- `keypad.dfy` (`Keypad`): `Key`, `Action`, and the key-to-text mapping.
- `amount.dfy` (`Amount`): `calculate_withdrawal_amount`. It builds the amount text from
  the keys and then parses it the way `str::parse::<u64>` does: digit by digit, with
  checked multiply and add. The parse is proved equal to the positional decimal value of
  the keys typed before the first `Enter`, bounded by 2^64.
- `machine.dfy` (`AtmMachine`): `Auth`, `Atm`, `with_cash_inside` and `NextState`, with one
  lemma per row of the transition table.
- `sessions.dfy` (`Sessions`): states reached by a sequence of actions, the invariants kept
  along the way, and whole login and withdrawal sessions.
- `scenarios.dfy` (`Scenarios`): each unit test of `atm.rs` stated as a lemma.

The PIN fingerprint (`crate::hash`, built on `DefaultHasher`) is a parameter
`hash: seq<Key> -> U64` of `NextState`. Nothing is assumed about its values. A test that
needs two fingerprints to differ says so in its `requires`.

## Where the code and its tests disagree

The body of `next_state` does not type-check as written. The model follows the unit tests
(`atm.rs:115-316`) and keeps the order of the match arms at `atm.rs:51-83`.

- **State type.** `type State = Auth` (line 47), yet the body reads `keystroke_register`
  and `cash_inside`. The tests build and compare whole `Atm` records, so the state here is
  the `Atm` record. What the source writes as `Auth::Waiting` is the waiting state with the
  same cash and an empty register (lines 62, 73-74, 76 and 79). `Auth::Authenticated`
  at line 60 is the same with phase `Authenticated`. The lemmas `PinVerification` and
  `WithdrawalBound` state these results. The bare `Auth::Authenticating(*pin_hash)` of a
  swipe at line 52 is read the other way: it keeps both the cash and the register, as the
  test at lines 115-130 expects.
- **Digit presses.** The match has no arm for digits, so they would fall into the no-op arm
  at line 82. The tests at lines 180-209 and 253-282 expect the digit to be appended. The
  model adds that arm after the two `Enter` arms and before the no-op arm.
- **PIN check.** The source fingerprints the starting phase value (lines 55-57). The tests
  compare the card's fingerprint with `crate::hash` of the typed keys (lines 214-215 and
  235-236). The model fingerprints the keystroke register, so the tests at lines 211-251
  hold. A comment in `NextState` records this.

## Model

| member | source | states |
|---|---|---|
| `Keypad.KeyText` | final-project/state-machine-atm/src/atm.rs:34-44 | `Enter` maps to the text "Enter". Each digit key maps to one decimal character whose value is the key's digit. |
| `Keypad.KeyTextInjective` | final-project/state-machine-atm/src/atm.rs:34-44 | Different keys have different texts. |
| `Amount.Accumulate` | final-project/state-machine-atm/src/atm.rs:95 | The digit-by-digit parse loop with overflow checks succeeds exactly when every character is a digit and the number spelled by acc's digits followed by the text stays below 2^64. It then yields that number. The per-step overflow checks therefore reject exactly the values of 2^64 or more. |
| `Amount.ParseU64` | final-project/state-machine-atm/src/atm.rs:95 | Parsing succeeds exactly for a non-empty all-digit text whose value is below 2^64, and yields that value. |
| `Amount.ParseDecimalText` | final-project/state-machine-atm/src/atm.rs:95 | Round trip: parsing the decimal text of any `u64` gives that number back. |
| `Amount.DigitPrefix` | final-project/state-machine-atm/src/atm.rs:89-93 | The keys the loop reads before it breaks. The result is a prefix of the register, holds no `Enter`, and is followed by `Enter` when it is shorter than the register. |
| `Amount.AmountText` | final-project/state-machine-atm/src/atm.rs:88-94 | The built amount text spells the read keys character by character. It has the same length, only decimal characters, and each character's value is the corresponding key's digit. |
| `Amount.TextValueOfKeys` | final-project/state-machine-atm/src/atm.rs:88-95 | A text that spells a key sequence digit by digit has the same decimal value as the keys. |
| `Amount.CalculateWithdrawalAmount` | final-project/state-machine-atm/src/atm.rs:87-96 | An amount is returned exactly when at least one digit precedes the first `Enter` and their decimal value is below 2^64. The amount is that value. An empty register gives no amount. |
| `Amount.DigitPrefixOfDigits` | final-project/state-machine-atm/src/atm.rs:89-93 | A register without `Enter` is read in full. |
| `Amount.KeysValueLowerBound` | final-project/state-machine-atm/src/atm.rs:87-96 | There is no zero key, so n typed digits are worth at least 10^(n-1). Any parsed amount is therefore at least 1. |
| `Amount.WithdrawalAmountExamples` | final-project/state-machine-atm/src/atm.rs:284-316 | `[One]` gives 1, `[One, Four]` gives 14, and the empty register gives no amount. |
| `AtmMachine.Initial` | final-project/state-machine-atm/src/atm.rs:28-32 | A new machine is in the default phase `Waiting`, with an empty register and the given cash. |
| `AtmMachine.Atm.WithCashInside` | final-project/state-machine-atm/src/atm.rs:98-107 | The copy holds the new cash, keeps the phase, and has an empty register. |
| `AtmMachine.NextState` | final-project/state-machine-atm/src/atm.rs:50-84 | Cash never grows, and it falls only on `Enter` once authenticated. `Authenticated` is reached only from itself or by confirming a PIN whose fingerprint matches the card. A credential is captured only by a swipe while waiting and is never replaced. The register is kept, cleared, or extended by the digit just pressed. `Enter` with a card in always clears the register and leaves `Authenticating`. |
| `AtmMachine.SwipeStartsAuthentication` | final-project/state-machine-atm/src/atm.rs:52 | From `Waiting`, `SwipeCard(h)` gives phase `Authenticating(h)`. Cash and register are unchanged. |
| `AtmMachine.SwipeWhileAuthenticatingIgnored` | final-project/state-machine-atm/src/atm.rs:82 | Swiping any card while authenticating returns the whole state unchanged. The first card's fingerprint and the typed keys are kept. |
| `AtmMachine.KeyWhileWaitingIgnored` | final-project/state-machine-atm/src/atm.rs:82 | Any key pressed while waiting leaves the state unchanged. |
| `AtmMachine.UnlistedEventsIgnored` | final-project/state-machine-atm/src/atm.rs:82 | Every pair the transition table does not list is a no-op: a key while waiting, or a swipe once a card is in. |
| `AtmMachine.DigitAppended` | final-project/state-machine-atm/src/atm.rs:180-209 | Once a card is in, pressing digit d turns register R into R + [d]. Phase and cash are unchanged. |
| `AtmMachine.PinVerification` | final-project/state-machine-atm/src/atm.rs:53-64 | `Enter` while authenticating clears the register and keeps the cash. The phase becomes `Authenticated` exactly when the fingerprint matches, and `Waiting` exactly when it does not. |
| `AtmMachine.WithdrawalBound` | final-project/state-machine-atm/src/atm.rs:65-81 | `Enter` once authenticated always gives `Waiting` with an empty register. A parsed amount a ≤ cash leaves cash − a. No amount, or a > cash, leaves the cash unchanged. |
| `AtmMachine.WithdrawalByTypedValue` | final-project/state-machine-atm/src/atm.rs:67-72 | Reading the typed digits as an unbounded number gives the same next state as the `u64` parse. An amount of 2^64 or more is rejected either way. |
| `Sessions.NextStatePreservesConsistency` | final-project/state-machine-atm/src/atm.rs:50-84 | A step keeps the register free of `Enter`, and keeps it empty while waiting. |
| `Sessions.Run` | final-project/state-machine-atm/src/atm.rs:50-84 | Applying any sequence of actions never increases the cash and keeps the register consistent. |
| `Sessions.RunAppend` | final-project/state-machine-atm/src/atm.rs:50-84 | Running a + b equals running a and then b. |
| `Sessions.TypingAppends` | final-project/state-machine-atm/src/atm.rs:253-282 | Once a card is in, typing a digit sequence appends it to the register in order and changes nothing else. |
| `Sessions.PinSession` | final-project/state-machine-atm/src/atm.rs:211-251 | Swipe, PIN and `Enter` from a fresh machine give `Authenticated` exactly when the PIN's fingerprint is the card's, and `Waiting` otherwise. The cash is untouched and the register is empty. |
| `Sessions.WithdrawalSession` | final-project/state-machine-atm/src/atm.rs:301-316 | A full session with the right PIN and a covered amount pays out exactly that amount and ends waiting. |
| `Scenarios.SimpleSwipeCard` | final-project/state-machine-atm/src/atm.rs:115-130 | A swipe while waiting with 10 in cash starts authenticating card 1234. |
| `Scenarios.SwipeCardAgainPartWayThrough` | final-project/state-machine-atm/src/atm.rs:132-161 | A second swipe mid-authentication changes nothing, with or without typed keys. |
| `Scenarios.PressKeyBeforeCardSwipe` | final-project/state-machine-atm/src/atm.rs:163-178 | A key before any swipe changes nothing. |
| `Scenarios.EnterSingleDigitOfPin` | final-project/state-machine-atm/src/atm.rs:180-209 | PIN digits are appended while authenticating. |
| `Scenarios.EnterWrongPin` | final-project/state-machine-atm/src/atm.rs:211-230 | If the two PINs' fingerprints differ, the wrong PIN sends the machine back to waiting with cash 10. |
| `Scenarios.EnterCorrectPin` | final-project/state-machine-atm/src/atm.rs:232-251 | The right PIN authenticates and clears the register. |
| `Scenarios.EnterSingleDigitOfWithdrawAmount` | final-project/state-machine-atm/src/atm.rs:253-282 | Amount digits are appended once authenticated. |
| `Scenarios.TryToWithdrawTooMuch` | final-project/state-machine-atm/src/atm.rs:284-299 | 14 against 10 in cash is refused: waiting again with 10. |
| `Scenarios.WithdrawAcceptableAmount` | final-project/state-machine-atm/src/atm.rs:301-316 | 1 against 10 in cash is paid: waiting again with 9. |

## Left out

- The `StateMachine` trait lives in `crate::traits`, which is not part of this model. Its
  shape (a state type, a transition type and a pure `next_state`) is the signature of
  `NextState`.
- `DefaultHasher`, `Hash` and `crate::hash` are foreign hashing code. The fingerprint is
  a function parameter, and no property of its values is claimed.
- The source fingerprints the starting phase value rather than the typed keys. With that
  reading the test at lines 232-251 would pass only if the fingerprint of
  `Authenticating(h)` were `h` itself, which the tests do not set up; they compare against
  the fingerprint of the typed PIN. The model therefore fingerprints the register. (The
  phase hash also would not compile: `Auth` at line 21 does not derive `Hash`.)
- `Amount.ParseU64`: Rust's parser also accepts a leading `+` and reports distinct error
  kinds. The amount text never starts with `+`, and `.ok()` discards the error kind, so
  neither is modelled.
- The field `expected_pin_hash` of the source holds the phase. Here it is named `auth`.
- Derives and ownership (`Clone`, `PartialEq`, `Debug`, the missing `Copy` on `Key`) and
  the test harness itself are not modelled. Neither is the fact that the source does not
  compile as written.

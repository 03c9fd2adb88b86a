/** The unit tests of atm.rs (lines 115-316), each stated as a lemma about
    `NextState` on the same start state and action. */
module Scenarios {
  import opened Base
  import opened Keypad
  import Amount
  import opened AtmMachine

  lemma SimpleSwipeCard(hash: Fingerprint)
    ensures NextState(hash, Atm(10, Waiting, []), SwipeCard(1234)) == Atm(10, Authenticating(1234), [])
  {
  }

  lemma SwipeCardAgainPartWayThrough(hash: Fingerprint)
    ensures NextState(hash, Atm(10, Authenticating(1234), []), SwipeCard(1234)) == Atm(10, Authenticating(1234), [])
    ensures NextState(hash, Atm(10, Authenticating(1234), [One, Three]), SwipeCard(1234)) ==
            Atm(10, Authenticating(1234), [One, Three])
  {
  }

  lemma PressKeyBeforeCardSwipe(hash: Fingerprint)
    ensures NextState(hash, Atm(10, Waiting, []), PressKey(One)) == Atm(10, Waiting, [])
  {
  }

  lemma EnterSingleDigitOfPin(hash: Fingerprint)
    ensures NextState(hash, Atm(10, Authenticating(1234), []), PressKey(One)) == Atm(10, Authenticating(1234), [One])
    ensures NextState(hash, Atm(10, Authenticating(1234), [One]), PressKey(Two)) ==
            Atm(10, Authenticating(1234), [One, Two])
  {
  }

  /** The test relies on the fingerprints of the two PINs differing. */
  lemma EnterWrongPin(hash: Fingerprint)
    requires hash([Three, Three, Three, Three]) != hash([One, Two, Three, Four])
    ensures NextState(hash, Atm(10, Authenticating(hash([One, Two, Three, Four])), [Three, Three, Three, Three]), PressKey(Enter)) ==
            Atm(10, Waiting, [])
  {
  }

  lemma EnterCorrectPin(hash: Fingerprint)
    ensures NextState(hash, Atm(10, Authenticating(hash([One, Two, Three, Four])), [One, Two, Three, Four]), PressKey(Enter)) ==
            Atm(10, Authenticated, [])
  {
  }

  lemma EnterSingleDigitOfWithdrawAmount(hash: Fingerprint)
    ensures NextState(hash, Atm(10, Authenticated, []), PressKey(One)) == Atm(10, Authenticated, [One])
    ensures NextState(hash, Atm(10, Authenticated, [One]), PressKey(Four)) == Atm(10, Authenticated, [One, Four])
  {
  }

  lemma TryToWithdrawTooMuch(hash: Fingerprint)
    ensures NextState(hash, Atm(10, Authenticated, [One, Four]), PressKey(Enter)) == Atm(10, Waiting, [])
  {
    Amount.WithdrawalAmountExamples();
  }

  lemma WithdrawAcceptableAmount(hash: Fingerprint)
    ensures NextState(hash, Atm(10, Authenticated, [One]), PressKey(Enter)) == Atm(9, Waiting, [])
  {
    Amount.WithdrawalAmountExamples();
  }
}

/** Sequences of actions fed to the ATM one by one, as a driver would, and the
    invariants `NextState` keeps along the way. */
module Sessions {
  import opened Base
  import opened Keypad
  import opened Amount
  import opened AtmMachine

  /** A register holds digits only, and is empty while no card is in. */
  predicate Consistent(s: Atm)
  {
    && AllDigits(s.keystrokeRegister)
    && (s.auth.Waiting? ==> s.keystrokeRegister == [])
  }

  /** One step keeps the register consistent. */
  lemma NextStatePreservesConsistency(hash: Fingerprint, s: Atm, t: Action)
    ensures Consistent(s) ==> Consistent(NextState(hash, s, t))
  {
  }

  /** The state reached by applying the actions in order. */
  function Run(hash: Fingerprint, s: Atm, ts: seq<Action>): (r: Atm)
    ensures r.cashInside <= s.cashInside
    ensures Consistent(s) ==> Consistent(r)
    decreases |ts|
  {
    if |ts| == 0 then s
    else
      NextStatePreservesConsistency(hash, s, ts[0]);
      Run(hash, NextState(hash, s, ts[0]), ts[1..])
  }

  /** Running two action sequences back to back is running their concatenation. */
  lemma {:induction false} RunAppend(hash: Fingerprint, s: Atm, a: seq<Action>, b: seq<Action>)
    ensures Run(hash, s, a + b) == Run(hash, Run(hash, s, a), b)
    decreases |a|
  {
    if |a| > 0 {
      assert (a + b)[0] == a[0];
      assert (a + b)[1..] == a[1..] + b;
      RunAppend(hash, NextState(hash, s, a[0]), a[1..], b);
    } else {
      assert a + b == b;
    }
  }

  /** The key presses that type `ks`. */
  function Presses(ks: seq<Key>): seq<Action>
  {
    seq(|ks|, i requires 0 <= i < |ks| => PressKey(ks[i]))
  }

  /** Once a card is in, typing digits appends them to the register in order and
      changes nothing else. */
  lemma {:induction false} TypingAppends(hash: Fingerprint, s: Atm, ks: seq<Key>)
    requires !s.auth.Waiting? && AllDigits(ks)
    ensures Run(hash, s, Presses(ks)) == s.(keystrokeRegister := s.keystrokeRegister + ks)
    decreases |ks|
  {
    if |ks| > 0 {
      var s' := NextState(hash, s, PressKey(ks[0]));
      DigitAppended(hash, s, ks[0]);
      assert Presses(ks)[1..] == Presses(ks[1..]);
      TypingAppends(hash, s', ks[1..]);
      assert s.keystrokeRegister + [ks[0]] + ks[1..] == s.keystrokeRegister + ks;
    }
  }

  /** The actions of a whole withdrawal: swipe, type the PIN, confirm, type the
      amount, confirm. */
  function Session(card: U64, pin: seq<Key>, amount: seq<Key>): seq<Action>
  {
    [SwipeCard(card)] + Presses(pin) + [PressKey(Enter)] + Presses(amount) + [PressKey(Enter)]
  }

  /** A waiting machine that is given a card, its PIN and an amount it can cover
      pays out exactly that amount and is waiting again afterwards. */
  lemma {:induction false} WithdrawalSession(hash: Fingerprint, cash: U64, pin: seq<Key>, amount: seq<Key>)
    requires AllDigits(pin) && AllDigits(amount) && |amount| > 0
    requires KeysValue(amount) <= cash
    ensures Run(hash, Initial(cash), Session(hash(pin), pin, amount)) == Initial(cash - KeysValue(amount))
  {
    var card := hash(pin);
    var s3 := Atm(cash, Authenticated, []);
    var s4 := Atm(cash, Authenticated, amount);
    var login := [SwipeCard(card)] + Presses(pin) + [PressKey(Enter)];
    assert Session(card, pin, amount) == login + (Presses(amount) + [PressKey(Enter)]);
    PinSession(hash, cash, card, pin);
    RunAppend(hash, Initial(cash), login, Presses(amount) + [PressKey(Enter)]);
    RunAppend(hash, s3, Presses(amount), [PressKey(Enter)]);
    TypingAppends(hash, s3, amount);
    assert [] + amount == amount;
    DigitPrefixOfDigits(amount);
    WithdrawalByTypedValue(hash, s4);
    assert Run(hash, s4, [PressKey(Enter)]) == NextState(hash, s4, PressKey(Enter));
  }

  /** Swiping a card, typing a PIN and confirming authenticates exactly when
      the PIN's fingerprint is the card's; otherwise the machine is waiting
      again. The cash is untouched and the register empty either way. */
  lemma {:induction false} PinSession(hash: Fingerprint, cash: U64, card: U64, pin: seq<Key>)
    requires AllDigits(pin)
    ensures Run(hash, Initial(cash), [SwipeCard(card)] + Presses(pin) + [PressKey(Enter)]) ==
            Atm(cash, if hash(pin) == card then Authenticated else Waiting, [])
  {
    var s1 := Atm(cash, Authenticating(card), []);
    var s2 := Atm(cash, Authenticating(card), pin);
    assert Run(hash, Initial(cash), [SwipeCard(card)]) == s1 by {
      assert Run(hash, s1, [SwipeCard(card)][1..]) == s1;
    }
    RunAppend(hash, Initial(cash), [SwipeCard(card)], Presses(pin));
    TypingAppends(hash, s1, pin);
    assert [] + pin == pin;
    RunAppend(hash, Initial(cash), [SwipeCard(card)] + Presses(pin), [PressKey(Enter)]);
    PinVerification(hash, s2);
    assert Run(hash, s2, [PressKey(Enter)]) == NextState(hash, s2, PressKey(Enter));
  }
}

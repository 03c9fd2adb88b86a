/** The ATM as a state machine (`StateMachine for Atm`, atm.rs lines 46-113).

    The generic `StateMachine` contract of the source (an associated state type,
    an associated transition type and a pure `next_state`) is represented by the
    signature of `NextState`: a total function from a state and an action to the
    next state. */
module AtmMachine {
  import opened Base
  import opened Keypad
  import opened Amount

  /** The authentication phases of the ATM; `Waiting` is the default. */
  datatype Auth = Waiting | Authenticating(pinHash: U64) | Authenticated

  /** The whole machine state: the cash it holds, its authentication phase
      (the field `expected_pin_hash` in the source) and the keys typed since the
      register was last cleared. */
  datatype Atm = Atm(cashInside: U64, auth: Auth, keystrokeRegister: seq<Key>) {

    /** A copy holding `cashInside`, with the same phase and an empty register. */
    function WithCashInside(cashInside: U64): (r: Atm)
      ensures r.auth == auth && r.keystrokeRegister == [] && r.cashInside == cashInside
    {
      Atm(cashInside, auth, [])
    }
  }

  /** The fingerprint of a typed PIN (`crate::hash`), left abstract: any function
      from key sequences to `u64` may be supplied. */
  type Fingerprint = seq<Key> -> U64

  /** The phase `Auth::default()` gives, with the cash the machine is stocked with. */
  function Initial(cashInside: U64): (s: Atm)
    ensures s.auth.Waiting? && s.keystrokeRegister == [] && s.cashInside == cashInside
  {
    Atm(cashInside, Waiting, [])
  }

  /** `next_state`. The arms are tried in the order of the source; the arm that
      appends a digit is not in the source's match, but its tests expect it.
      Where the source returns a bare `Auth::Waiting` or `Auth::Authenticated`,
      the result is that phase with the cash kept and the register cleared. */
  function NextState(hash: Fingerprint, s: Atm, t: Action): (r: Atm)
    // cash never grows, and only a withdrawal after authentication lowers it
    ensures r.cashInside <= s.cashInside
    ensures r.cashInside < s.cashInside ==> s.auth.Authenticated? && t == PressKey(Enter)
    // the only ways into Authenticated: already there, or the right PIN confirmed
    ensures r.auth.Authenticated? ==>
              s.auth.Authenticated? ||
              (s.auth.Authenticating? && t == PressKey(Enter) && hash(s.keystrokeRegister) == s.auth.pinHash)
    // a credential is captured only by a swipe while waiting, and never replaced
    ensures r.auth.Authenticating? ==>
              r.auth == s.auth || (s.auth.Waiting? && t == SwipeCard(r.auth.pinHash))
    // the register is kept, cleared, or grows by the digit just pressed
    ensures r.keystrokeRegister == s.keystrokeRegister || r.keystrokeRegister == [] ||
            (t.PressKey? && !t.key.Enter? && r.keystrokeRegister == s.keystrokeRegister + [t.key])
    // Enter always ends an authentication step or a withdrawal
    ensures t == PressKey(Enter) && !s.auth.Waiting? ==>
              r.keystrokeRegister == [] && !r.auth.Authenticating? &&
              (r.auth.Authenticated? <==> s.auth.Authenticating? && hash(s.keystrokeRegister) == s.auth.pinHash)
  {
    match (s.auth, t)
    case (Waiting, SwipeCard(pinHash)) =>
      s.(auth := Authenticating(pinHash))
    case (Authenticating(pinHash), PressKey(Enter)) =>
      // The source fingerprints the phase value itself; the tests fingerprint the typed keys, as here.
      if hash(s.keystrokeRegister) == pinHash then Atm(s.cashInside, Authenticated, []) else Atm(s.cashInside, Waiting, [])
    case (Authenticated, PressKey(Enter)) =>
      (match CalculateWithdrawalAmount(s.keystrokeRegister)
       case Some(amount) =>
         if s.cashInside >= amount then Atm(s.cashInside, Waiting, []).WithCashInside(s.cashInside - amount)
         else Atm(s.cashInside, Waiting, [])
       case None =>
         Atm(s.cashInside, Waiting, []))
    case (Authenticating(_), PressKey(digit)) =>
      s.(keystrokeRegister := s.keystrokeRegister + [digit])
    case (Authenticated, PressKey(digit)) =>
      s.(keystrokeRegister := s.keystrokeRegister + [digit])
    case _ =>
      s
  }

  /** From `Waiting`, a swipe starts authenticating against the card's
      fingerprint; cash and register are kept. */
  lemma SwipeStartsAuthentication(hash: Fingerprint, s: Atm, card: U64)
    requires s.auth.Waiting?
    ensures NextState(hash, s, SwipeCard(card)) == Atm(s.cashInside, Authenticating(card), s.keystrokeRegister)
  {
  }

  /** A second swipe while authenticating is ignored: the first card's
      fingerprint and the keys typed so far are kept. */
  lemma SwipeWhileAuthenticatingIgnored(hash: Fingerprint, s: Atm, card: U64)
    requires s.auth.Authenticating?
    ensures NextState(hash, s, SwipeCard(card)) == s
  {
  }

  /** Keys pressed before a card is swiped are ignored. */
  lemma KeyWhileWaitingIgnored(hash: Fingerprint, s: Atm, k: Key)
    requires s.auth.Waiting?
    ensures NextState(hash, s, PressKey(k)) == s
  {
  }

  /** Every pair the transition table does not list leaves the state as it is:
      a key while waiting, a swipe once a card is in. */
  lemma UnlistedEventsIgnored(hash: Fingerprint, s: Atm, t: Action)
    requires (s.auth.Waiting? && t.PressKey?) || (!s.auth.Waiting? && t.SwipeCard?)
    ensures NextState(hash, s, t) == s
  {
  }

  /** Once a card is in, a digit is appended to the register and nothing else changes. */
  lemma DigitAppended(hash: Fingerprint, s: Atm, k: Key)
    requires !s.auth.Waiting? && !k.Enter?
    ensures NextState(hash, s, PressKey(k)) == s.(keystrokeRegister := s.keystrokeRegister + [k])
  {
  }

  /** `Enter` while authenticating checks the typed PIN against the card:
      authenticated exactly when the fingerprints agree, back to waiting
      otherwise; the register is cleared and the cash kept either way. */
  lemma PinVerification(hash: Fingerprint, s: Atm)
    requires s.auth.Authenticating?
    ensures var r := NextState(hash, s, PressKey(Enter));
            && r.keystrokeRegister == []
            && r.cashInside == s.cashInside
            && (r.auth == Authenticated <==> hash(s.keystrokeRegister) == s.auth.pinHash)
            && (r.auth == Waiting <==> hash(s.keystrokeRegister) != s.auth.pinHash)
  {
  }

  /** `Enter` once authenticated always ends the session with an empty register;
      the cash drops by the typed amount when it is covered and stays put
      otherwise (no amount typed, or more than the machine holds). */
  lemma WithdrawalBound(hash: Fingerprint, s: Atm)
    requires s.auth.Authenticated?
    ensures var r := NextState(hash, s, PressKey(Enter));
            var amount := CalculateWithdrawalAmount(s.keystrokeRegister);
            && r.auth == Waiting
            && r.keystrokeRegister == []
            && (amount.Some? && amount.value <= s.cashInside ==> r.cashInside == s.cashInside - amount.value)
            && (amount.None? || amount.value > s.cashInside ==> r.cashInside == s.cashInside)
  {
  }

  /** The `u64` limit of the amount parser never changes the outcome: reading the
      typed digits as an unbounded number gives the same next state, since an
      amount of 2^64 or more exceeds any `u64` cash level anyway. */
  lemma WithdrawalByTypedValue(hash: Fingerprint, s: Atm)
    requires s.auth.Authenticated?
    ensures var digits := DigitPrefix(s.keystrokeRegister);
            NextState(hash, s, PressKey(Enter)) ==
              Atm(if |digits| > 0 && KeysValue(digits) <= s.cashInside then s.cashInside - KeysValue(digits) else s.cashInside,
                  Waiting, [])
  {
  }
}


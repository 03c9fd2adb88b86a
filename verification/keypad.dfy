/** The keypad and the inputs the ATM reacts to (atm.rs, lines 5-44). */
module Keypad {
  import opened Base

  /** The keys on the ATM keypad: four digits and the confirmation key. */
  datatype Key = One | Two | Three | Four | Enter {

    /** The number a digit key stands for. */
    function Digit(): (d: nat)
      requires !Enter?
      ensures 1 <= d <= 4
    {
      match this
      case One => 1
      case Two => 2
      case Three => 3
      case Four => 4
    }
  }

  /** Something done to the ATM: a card swipe carrying the card's PIN
      fingerprint, or a key press. */
  datatype Action = SwipeCard(pinHash: U64) | PressKey(key: Key)

  /** A register holds digits only: `Enter` is never stored, it consumes the register. */
  predicate AllDigits(ks: seq<Key>)
  {
    forall i :: 0 <= i < |ks| ==> !ks[i].Enter?
  }

  predicate IsDecimalChar(c: char)
  {
    '0' <= c <= '9'
  }

  /** The value of one decimal-digit character. */
  function CharValue(c: char): (v: nat)
    requires IsDecimalChar(c)
    ensures v <= 9
  {
    c as int - '0' as int
  }

  /** The text a key contributes to an amount string (`From<Key> for &str`). */
  function KeyText(k: Key): (t: string)
    ensures k.Enter? <==> t == "Enter"
    ensures !k.Enter? ==> |t| == 1 && IsDecimalChar(t[0]) && CharValue(t[0]) == k.Digit()
  {
    match k
    case One => "1"
    case Two => "2"
    case Three => "3"
    case Four => "4"
    case Enter => "Enter"
  }

  /** Different keys have different texts, so the text of a key identifies it. */
  lemma KeyTextInjective(a: Key, b: Key)
    ensures KeyText(a) == KeyText(b) ==> a == b
  {
  }
}

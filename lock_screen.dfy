/** The PIN keypad shown by the lock screen and by the passcode set-up overlay. */
module LockScreen {

  const MaxDigits := 8
  const MinDigits := 4

  predicate IsDigit(c: char) {
    '0' <= c <= '9'
  }

  /** What the pad may hold: digits only, at most eight of them. */
  predicate ValidPin(s: string) {
    |s| <= MaxDigits && forall i :: 0 <= i < |s| ==> IsDigit(s[i])
  }

  /** Digits are single-byte characters, so `btoa` accepts whatever the pad holds. */
  lemma AllDigitsLatin1(s: string)
    requires forall i :: 0 <= i < |s| ==> IsDigit(s[i])
    ensures forall i :: 0 <= i < |s| ==> s[i] as int < 256
  {
  }

  /** The PIN display: `max(|input|, 4)` dots, the first `|input|` of them filled. */
  function PinDots(input: string): (dots: seq<bool>)
    ensures |dots| >= |input|
    ensures forall i :: 0 <= i < |dots| ==> (dots[i] <==> i < |input|)
  {
    seq(if |input| < MinDigits then MinDigits else |input|, i => i < |input|)
  }

  function CountFilled(dots: seq<bool>): nat {
    if dots == [] then 0 else (if dots[0] then 1 else 0) + CountFilled(dots[1..])
  }

  lemma {:induction false} CountFilledPrefix(dots: seq<bool>, k: nat)
    requires k <= |dots|
    requires forall i :: 0 <= i < |dots| ==> (dots[i] <==> i < k)
    ensures CountFilled(dots) == k
  {
    if dots != [] {
      CountFilledPrefix(dots[1..], if k == 0 then 0 else k - 1);
    }
  }

  /** The display never shows fewer than four dots, and exactly the entered digits are filled. */
  lemma PinDotsShowInput(input: string)
    ensures |PinDots(input)| == if |input| < MinDigits then MinDigits else |input|
    ensures CountFilled(PinDots(input)) == |input|
  {
    CountFilledPrefix(PinDots(input), |input|);
  }

  /** The keypad's state: the digits entered, and the error and success flags that drive its animation. */
  class PinPad {
    var input: string
    var error: bool
    var success: bool

    predicate Valid()
      reads this
    {
      ValidPin(input)
    }

    constructor ()
      ensures Valid() && input == "" && !error && !success
    {
      input, error, success := "", false, false;
    }

    /** A digit key: appended only while fewer than eight digits are entered; then the error flag clears. */
    method PressKey(d: char)
      requires Valid() && IsDigit(d)
      modifies this`input, this`error
      ensures Valid()
      ensures |old(input)| < MaxDigits ==> input == old(input) + [d] && !error
      ensures |old(input)| >= MaxDigits ==> input == old(input) && error == old(error)
    {
      if |input| < MaxDigits {
        input := input + [d];
        error := false;
      }
    }

    /** Backspace drops the last digit (nothing on an empty pad) and clears the error flag. */
    method Backspace()
      requires Valid()
      modifies this`input, this`error
      ensures Valid() && !error
      ensures input == if old(input) == "" then "" else old(input)[..|old(input)| - 1]
    {
      if input != "" {
        input := input[..|input| - 1];
      }
      error := false;
    }

    /** The submit key is enabled from four digits on. */
    predicate CanSubmit()
      reads this
      ensures Valid() && CanSubmit() ==> MinDigits <= |input| <= MaxDigits
    {
      |input| >= MinDigits
    }

    /** What submitting hands to the `onUnlock` callback: always four to eight digits. */
    method Attempt() returns (pin: string)
      requires Valid() && CanSubmit()
      ensures pin == input
      ensures MinDigits <= |pin| <= MaxDigits && forall i :: 0 <= i < |pin| ==> IsDigit(pin[i])
    {
      pin := input;
    }

    /**
     * The callback's answer: acceptance sets the success flag; rejection sets
     * the error flag and, once its short delay has passed, empties the pad.
     */
    method Settle(accepted: bool)
      requires Valid()
      modifies this`input, this`error, this`success
      ensures Valid()
      ensures accepted ==> success && input == old(input) && error == old(error)
      ensures !accepted ==> error && input == "" && success == old(success)
    {
      if accepted {
        success := true;
      } else {
        error := true;
        input := "";
      }
    }
  }
}

/** The check `main` (App.py) applies to the typed CUIT, the Argentine
    taxpayer identifier, before any portal is asked. */
module Cuit {
  import opened Text

  /** `len(cuit_input) == 11 and cuit_input.isdigit()`. */
  predicate IsValid(input: string) {
    |input| == 11 && IsDigitString(input)
  }

  /** Accepted exactly when the input has eleven characters and each one is a digit. */
  lemma ValidIff(input: string)
    ensures IsValid(input) <==> |input| == 11 && forall k :: 0 <= k < |input| ==> IsDigit(input[k])
  {
    AllDigitsIff(input);
  }

  /** Inputs of the wrong length are refused before their characters are
      looked at: too short, twelve digits, the dashed form, the empty input. */
  lemma RejectsWrongLength()
    ensures !IsValid("123")
    ensures !IsValid("123456789012")
    ensures !IsValid("20-12345678-9")
    ensures !IsValid("")
  {
  }

  /** Eleven characters with a letter among them are refused. */
  lemma RejectsLetter()
    ensures !IsValid("1234567890a")
  {
    ValidIff("1234567890a");
    assert "1234567890a"[10] == 'a';
  }

  /** The decimal text of any eleven-digit number is accepted. */
  lemma AcceptsElevenDigitNumbers(n: nat)
    requires Pow10(10) <= n < Pow10(11)
    ensures IsValid(NatToString(n))
  {
    NatToStringLength(n, 11);
    AllDigitsIff(NatToString(n));
  }
}

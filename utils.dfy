/** Utils.randomPwd: a password of characters drawn from an alphabet. The
    random generator is given as the sequence of values its nextInt calls
    return, each below the alphabet's length as nextInt guarantees. */
module Utils {
  const UpperCase: string := "ABCDEFGHIJKLMNOPQRSTUVWXYZ"
  const LowerCase: string := "abcdefghijklmnopqrstuvwxyz"
  const Digits: string := "0123456789"

  /** The 62 letters and digits of the default alphabet, in this order. */
  const AlphaNumAlphabet: string := UpperCase + LowerCase + Digits

  const DefaultLength: nat := 32

  predicate IsAlphaNum(c: char) {
    ('A' <= c <= 'Z') || ('a' <= c <= 'z') || ('0' <= c <= '9')
  }

  /** The character at position i of the default alphabet: upper-case
      letters, then lower-case letters, then digits. */
  function AlphabetChar(i: nat): (c: char)
    requires i < 62
    ensures IsAlphaNum(c)
  {
    if i < 26 then ('A' as int + i) as char
    else if i < 52 then ('a' as int + (i - 26)) as char
    else ('0' as int + (i - 52)) as char
  }

  /** The default alphabet lists the letters and digits in that order. */
  lemma AlphabetIsAlphaNum()
    ensures |AlphaNumAlphabet| == 62
    ensures forall i | 0 <= i < 62 :: AlphaNumAlphabet[i] == AlphabetChar(i)
  {
    assert forall i | 0 <= i < 26 :: UpperCase[i] as int == 'A' as int + i;
    assert forall i | 0 <= i < 26 :: LowerCase[i] as int == 'a' as int + i;
    assert forall i | 0 <= i < 10 :: Digits[i] as int == '0' as int + i;
  }

  /** Every letter and digit occurs in the default alphabet, and only they do. */
  lemma EveryAlphaNumInAlphabet(c: char)
    ensures c in AlphaNumAlphabet <==> IsAlphaNum(c)
  {
    AlphabetIsAlphaNum();
    if 'A' <= c <= 'Z' {
      assert AlphaNumAlphabet[c as int - 'A' as int] == c;
    } else if 'a' <= c <= 'z' {
      assert AlphaNumAlphabet[26 + (c as int - 'a' as int)] == c;
    } else if '0' <= c <= '9' {
      assert AlphaNumAlphabet[52 + (c as int - '0' as int)] == c;
    }
  }

  /** randomPwd(alphabet, length): position i holds the alphabet character
      at the i-th draw. */
  method RandomPwdFrom(alphabet: array<char>, length: nat, draws: seq<nat>) returns (pwd: array<char>)
    requires |draws| == length
    requires forall i | 0 <= i < length :: draws[i] < alphabet.Length
    ensures fresh(pwd) && pwd.Length == length
    ensures forall i | 0 <= i < length :: pwd[i] == alphabet[draws[i]]
  {
    pwd := new char[length];
    for i := 0 to length
      invariant forall j | 0 <= j < i :: pwd[j] == alphabet[draws[j]]
    {
      pwd[i] := alphabet[draws[i]];
    }
  }

  /** randomPwd(): 32 characters, each a letter or a digit. */
  method RandomPwd(draws: seq<nat>) returns (pwd: array<char>)
    requires |draws| == DefaultLength
    requires forall i | 0 <= i < DefaultLength :: draws[i] < |AlphaNumAlphabet|
    ensures fresh(pwd) && pwd.Length == DefaultLength
    ensures forall i | 0 <= i < DefaultLength :: pwd[i] == AlphaNumAlphabet[draws[i]] && IsAlphaNum(pwd[i])
  {
    var alphabet := new char[|AlphaNumAlphabet|](i requires 0 <= i < |AlphaNumAlphabet| => AlphaNumAlphabet[i]);
    pwd := RandomPwdFrom(alphabet, DefaultLength, draws);
    AlphabetIsAlphaNum();
  }
}

/**
 * `is_integer_string`, the check that `safe_get_int` applies to a trimmed
 * input line before converting it: an optional sign followed by one or more
 * decimal digits. A C string is modelled as the characters from the pointer
 * onwards, which contain a terminating NUL.
 */
module InputValidation {

  const Nul: char := '\0'

  /** The length `strlen` would report: the index of the first NUL. */
  function CLength(s: seq<char>): (len: nat)
    requires Nul in s
    ensures len < |s| && s[len] == Nul
    ensures forall i :: 0 <= i < len ==> s[i] != Nul
  {
    if s[0] == Nul then 0 else 1 + CLength(s[1..])
  }

  /** The C string at s: the characters before the first NUL. */
  function CString(s: seq<char>): seq<char>
    requires Nul in s
  {
    s[..CLength(s)]
  }

  predicate IsSign(c: char) {
    c == '+' || c == '-'
  }

  predicate IsDigit(c: char) {
    '0' <= c <= '9'
  }

  predicate AllDigits(t: seq<char>) {
    forall i :: 0 <= i < |t| ==> IsDigit(t[i])
  }

  /** An optional '+' or '-' followed by one or more decimal digits. */
  predicate IntegerLiteral(t: seq<char>) {
    var digits := if |t| > 0 && IsSign(t[0]) then t[1..] else t;
    |digits| >= 1 && AllDigits(digits)
  }

  /**
   * `is_integer_string`: rejects the empty string, skips one sign, rejects a
   * lone sign, then walks the pointer until the NUL, rejecting any non-digit.
   */
  method IsIntegerString(s: seq<char>) returns (ok: bool)
    requires Nul in s
    ensures ok <==> IntegerLiteral(CString(s))
  {
    var t := CString(s);
    if s[0] == Nul {
      return false;
    }

    var p := 0;
    if s[p] == '+' || s[p] == '-' {
      p := p + 1;
    }
    var first := p;

    if s[p] == Nul {
      return false;
    }

    while s[p] != Nul
      invariant first <= p <= CLength(s)
      invariant first < CLength(s)
      invariant forall i :: first <= i < p ==> IsDigit(s[i])
      decreases CLength(s) - p
    {
      if s[p] < '0' || s[p] > '9' {
        assert !IsDigit(t[p]);
        return false;
      }
      p := p + 1;
    }

    assert t[first..] == s[first..CLength(s)];
    return true;
  }

  /** The decimal digits of n, most significant first, as `printf("%d")` writes them. */
  function DecimalDigits(n: nat): (d: seq<char>)
    ensures |d| >= 1
    decreases n
  {
    var last := ['0' + (n % 10) as char];
    if n < 10 then last else DecimalDigits(n / 10) + last
  }

  lemma {:induction false} DecimalDigitsAreDigits(n: nat)
    ensures AllDigits(DecimalDigits(n))
    ensures Nul !in DecimalDigits(n)
    decreases n
  {
    if n >= 10 {
      DecimalDigitsAreDigits(n / 10);
    }
  }

  /** Every decimal numeral, bare or with a sign, is accepted once NUL-terminated. */
  lemma NumeralsAccepted(n: nat, sign: seq<char>)
    requires sign == [] || sign == ['+'] || sign == ['-']
    ensures IntegerLiteral(sign + DecimalDigits(n))
    ensures CString(sign + DecimalDigits(n) + [Nul]) == sign + DecimalDigits(n)
  {
    var t := sign + DecimalDigits(n);
    DecimalDigitsAreDigits(n);
    assert Nul !in t;
    CStringOfTerminated(t);
    if sign != [] {
      assert t[1..] == DecimalDigits(n);
    } else {
      assert !IsSign(t[0]);
    }
  }

  /** Appending a NUL to a NUL-free text gives back that text as a C string. */
  lemma {:induction false} CStringOfTerminated(t: seq<char>)
    requires Nul !in t
    ensures CString(t + [Nul]) == t
  {
    if t != [] {
      assert (t + [Nul])[1..] == t[1..] + [Nul];
      CStringOfTerminated(t[1..]);
    }
  }

  /** The empty string, a lone sign and a sign without digits are all rejected. */
  lemma RejectsEmptyAndLoneSign(c: char)
    requires IsSign(c)
    ensures !IntegerLiteral([])
    ensures !IntegerLiteral([c])
    ensures !IntegerLiteral([c, c])
  {
  }
}

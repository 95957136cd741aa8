/** Helpers shared by the model: an Option type, the random-string generator
    of utils.py and the numeric-argument check and parse used by the bot. */
module Utils {

  datatype Option<T> = None | Some(value: T)

  /** The alphabet of `randomstr`: upper-case ASCII letters followed by digits. */
  const Charset: string := "ABCDEFGHIJKLMNOPQRSTUVWXYZ0123456789"

  predicate IsUpperOrDigit(c: char) {
    ('A' <= c <= 'Z') || ('0' <= c <= '9')
  }

  lemma CharsetChars(j: nat)
    requires j < |Charset|
    ensures IsUpperOrDigit(Charset[j])
  {
    var s := Charset;
    assert s == "ABCDEFGHIJKLMNOPQRSTUVWXYZ" + "0123456789";
    if j < 26 {
      assert Charset[j] == "ABCDEFGHIJKLMNOPQRSTUVWXYZ"[j];
    } else {
      assert Charset[j] == "0123456789"[j - 26];
    }
  }

  /** `randomstr(length)`: `pick(i)` stands for the i-th choice made by
      `random.choices`, an index into the alphabet. */
  function RandomStr(length: nat, pick: nat -> nat): (s: string)
    ensures |s| == length
    ensures forall i :: 0 <= i < |s| ==> IsUpperOrDigit(s[i])
    ensures forall i :: 0 <= i < |s| ==> s[i] == Charset[pick(i) % |Charset|]
  {
    var s := seq(length, i requires 0 <= i < length => Charset[pick(i) % |Charset|]);
    forall i | 0 <= i < |s| ensures IsUpperOrDigit(s[i]) {
      CharsetChars(pick(i) % |Charset|);
    }
    s
  }

  /** A member of a non-empty set, as a witness for picking one. */
  lemma MemberOf<T>(s: set<T>) returns (x: T)
    requires s != {}
    ensures x in s
  {
    x :| x in s;
  }

  predicate IsDigit(c: char) {
    '0' <= c <= '9'
  }

  /** `str.isnumeric()` restricted to ASCII: non-empty and all digits. */
  predicate IsNumeric(s: string) {
    |s| > 0 && forall i :: 0 <= i < |s| ==> IsDigit(s[i])
  }

  function DigitValue(c: char): (d: nat)
    requires IsDigit(c)
    ensures d < 10
  {
    c as int - '0' as int
  }

  function DigitChar(d: nat): (c: char)
    requires d < 10
    ensures IsDigit(c) && DigitValue(c) == d
  {
    ('0' as int + d) as char
  }

  /** `int(s)` for a string of decimal digits, read most significant first. */
  function ParseNat(s: string): (n: nat)
    requires forall i :: 0 <= i < |s| ==> IsDigit(s[i])
  {
    if |s| == 0 then 0
    else 10 * ParseNat(s[..|s| - 1]) + DigitValue(s[|s| - 1])
  }

  /** `str(n)` for a natural number: the reference decimal rendering. */
  function ShowNat(n: nat): (s: string)
    ensures IsNumeric(s)
  {
    if n < 10 then [DigitChar(n)] else ShowNat(n / 10) + [DigitChar(n % 10)]
  }

  /** Reading back the decimal rendering of a number yields the number. */
  lemma {:induction false} ParseShow(n: nat)
    ensures ParseNat(ShowNat(n)) == n
  {
    var s := ShowNat(n);
    if n >= 10 {
      ParseShow(n / 10);
      assert s[..|s| - 1] == ShowNat(n / 10);
    }
  }
}

/** Small shared vocabulary: optional values and the JSON scalars a batch item carries. */
module Common {

  /** A value that may be absent: a missing dictionary key, or Python's None. */
  datatype Option<+T> = None | Some(value: T) {

    /** The value, or `default` when absent (Python's `dict.get(key)` with a default). */
    function GetOr(default: T): T {
      match this
      case Some(v) => v
      case None => default
    }
  }

  /**
   * The JSON values a request item may carry in `rowIndex`, `igUsername`
   * or `dmContent`: null, integers and strings. Booleans, floats, objects
   * and arrays in those positions are not modelled.
   */
  datatype Json = JNull | JNum(n: int) | JStr(s: string)

  /** Decimal digits of a natural number, most significant first. */
  function NatDigits(n: nat): (r: string)
    ensures |r| >= 1
    ensures forall i :: 0 <= i < |r| ==> '0' <= r[i] <= '9'
    decreases n
  {
    var d := [('0' as int + n % 10) as char];
    if n < 10 then d else NatDigits(n / 10) + d
  }

  /** The number a string of decimal digits denotes, most significant first. */
  function DigitsValue(s: string): int {
    if |s| == 0 then 0 else DigitsValue(s[..|s| - 1]) * 10 + (s[|s| - 1] as int - '0' as int)
  }

  /** Reading the digits back gives the number. */
  lemma {:induction false} NatDigitsRoundTrip(n: nat)
    ensures DigitsValue(NatDigits(n)) == n
    decreases n
  {
    var d := [('0' as int + n % 10) as char];
    if n < 10 {
      assert d[..0] == [];
    } else {
      NatDigitsRoundTrip(n / 10);
      var all := NatDigits(n / 10) + d;
      assert all[..|all| - 1] == NatDigits(n / 10);
    }
  }

  /** The text Python's `str()` (and so an f-string) produces for a JSON scalar. */
  function Display(j: Json): (r: string)
    ensures j.JStr? ==> r == j.s
    ensures j.JNull? ==> r == "None"
    ensures j.JNum? ==> |r| >= 1 && (r[0] == '-' <==> j.n < 0)
    ensures j.JNum? && j.n >= 0 ==> DigitsValue(r) == j.n
    ensures j.JNum? && j.n < 0 ==> DigitsValue(r[1..]) == -j.n
  {
    match j
    case JNull => "None"
    case JStr(s) => s
    case JNum(n) =>
      if n < 0 then
        NatDigitsRoundTrip(-n);
        assert ("-" + NatDigits(-n))[1..] == NatDigits(-n);
        "-" + NatDigits(-n)
      else
        NatDigitsRoundTrip(n);
        NatDigits(n)
  }
}

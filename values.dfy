/** Python values as the gateway sees them: what a handler returns and what
    the ambient response dictionary holds. */
module Values {

  datatype Option<+T> = None | Some(value: T)

  /** A Python object. `NoneVal` is Python's `None`; `Obj` stands for any
      other object (a dict, a list, a bool, a model instance), carried
      with the text that `str()` gives for it. */
  datatype Value = NoneVal | Int(n: int) | Str(s: string) | Obj(text: string)

  /** The decimal digits of a natural number, most significant first. */
  function Digits(n: nat): (r: string)
    ensures |r| >= 1
    ensures forall i :: 0 <= i < |r| ==> '0' <= r[i] <= '9'
    ensures n > 0 || |r| > 1 ==> r[0] != '0'
    decreases n
  {
    var d := ['0', '1', '2', '3', '4', '5', '6', '7', '8', '9'][n % 10];
    if n < 10 then [d] else Digits(n / 10) + [d]
  }

  /** The number a string of decimal digits denotes. */
  function DecimalValue(s: string): (r: int)
    ensures (forall i :: 0 <= i < |s| ==> '0' <= s[i] <= '9') ==> r >= 0
  {
    if s == [] then 0 else DecimalValue(s[..|s| - 1]) * 10 + (s[|s| - 1] as int - '0' as int)
  }

  /** Python's `int()` on an optionally signed decimal numeral. */
  function ParseInt(s: string): (r: int)
  {
    if |s| > 0 && s[0] == '-' then -DecimalValue(s[1..]) else DecimalValue(s)
  }

  /** Python's `str()` on a value: a string is its own text, `None` prints as
      "None", and an integer prints as a numeral with a sign exactly when
      it is negative. */
  function PyStr(v: Value): (r: string)
    ensures v.Str? ==> r == v.s
    ensures v.NoneVal? ==> r == "None"
    ensures v.Obj? ==> r == v.text
    ensures v.Int? ==> |r| >= 1 && (r[0] == '-' <==> v.n < 0)
    ensures v.Int? ==> var digits := if v.n < 0 then r[1..] else r;
                       && |digits| >= 1
                       && (forall i :: 0 <= i < |digits| ==> '0' <= digits[i] <= '9')
                       && (|digits| > 1 ==> digits[0] != '0')
  {
    match v
    case NoneVal => "None"
    case Int(n) => if n < 0 then "-" + Digits(-n) else Digits(n)
    case Str(s) => s
    case Obj(text) => text
  }

  /** The digits of `n` denote `n`. */
  lemma {:induction false} DigitsValue(n: nat)
    ensures DecimalValue(Digits(n)) == n
    decreases n
  {
    var d := ['0', '1', '2', '3', '4', '5', '6', '7', '8', '9'][n % 10];
    assert d as int - '0' as int == n % 10;
    if n >= 10 {
      var prefix := Digits(n / 10);
      assert (prefix + [d])[..|prefix + [d]| - 1] == prefix;
      DigitsValue(n / 10);
    }
  }

  /** `int(str(n)) == n` for every integer `n`. */
  lemma PyStrIntRoundTrip(n: int)
    ensures ParseInt(PyStr(Int(n))) == n
  {
    if n < 0 {
      DigitsValue(-n);
      assert ("-" + Digits(-n))[1..] == Digits(-n);
    } else {
      DigitsValue(n);
    }
  }
}

/** The Python text operations the integration relies on: `str()` of a JSON
    scalar, ASCII `str.lower`, `str.join`, `str.split('-', 1)[0]` and
    `str.format` with named replacement fields. */
module PyText {
  import opened Wrappers
  import opened Json

  function DigitChar(d: nat): char
    requires d < 10
  {
    "0123456789"[d]
  }

  predicate IsDigit(c: char) {
    '0' <= c <= '9'
  }

  /** Decimal digits of a natural number, most significant first, no leading zero. */
  function NatText(n: nat): (r: string)
    ensures r != []
    ensures forall i :: 0 <= i < |r| ==> IsDigit(r[i])
    ensures |r| == 1 <==> n < 10
  {
    if n < 10 then [DigitChar(n)] else NatText(n / 10) + [DigitChar(n % 10)]
  }

  lemma DigitCharInjective(a: nat, b: nat)
    requires a < 10 && b < 10 && DigitChar(a) == DigitChar(b)
    ensures a == b
  {
  }

  /** Distinct numbers print as distinct digit strings (so a forecast day is
      recoverable from a sensor's unique id). */
  lemma {:induction false} NatTextInjective(a: nat, b: nat)
    requires NatText(a) == NatText(b)
    ensures a == b
  {
    var ra, rb := NatText(a), NatText(b);
    if a < 10 {
      assert b < 10;
      DigitCharInjective(a, b);
    } else {
      assert b >= 10;
      assert ra == NatText(a / 10) + [DigitChar(a % 10)];
      assert rb == NatText(b / 10) + [DigitChar(b % 10)];
      assert NatText(a / 10) == ra[..|ra| - 1] == rb[..|rb| - 1] == NatText(b / 10);
      NatTextInjective(a / 10, b / 10);
      assert ra[|ra| - 1] == DigitChar(a % 10) && rb[|rb| - 1] == DigitChar(b % 10);
      DigitCharInjective(a % 10, b % 10);
    }
  }

  /** Python's `str(i)` for an int. */
  function IntText(i: int): string {
    if i < 0 then "-" + NatText(-i) else NatText(i)
  }

  function ZeroPad(s: string, width: nat): (r: string)
    ensures |r| == if |s| < width then width else |s|
    decreases width - |s|
  {
    if |s| < width then ZeroPad("0" + s, width) else s
  }

  /** Drops trailing zero digits from a decimal `m / 10^s`. */
  function Normalize(m: int, s: nat): (n: (int, nat))
    ensures n.1 <= s && m == n.0 * Pow10(s - n.1)
    ensures n.1 > 0 ==> n.0 % 10 != 0
    ensures m != 0 ==> n.0 != 0
    decreases s
  {
    if s > 0 && m % 10 == 0 then Normalize(m / 10, s - 1) else (m, s)
  }

  /** `n` zero digits. */
  function Zeros(n: nat): (r: string)
    ensures |r| == n && forall i :: 0 <= i < n ==> r[i] == '0'
  {
    if n == 0 then "" else "0" + Zeros(n - 1)
  }

  /** A digit string without its trailing zeros. */
  function StripZeros(t: string): (r: string)
    ensures |r| <= |t| && r == t[..|r|]
    ensures forall i :: |r| <= i < |t| ==> t[i] == '0'
  {
    if t != [] && t[|t| - 1] == '0' then StripZeros(t[..|t| - 1]) else t
  }

  /** The exponent of the scientific form: a sign, then at least two digits. */
  function ExponentText(e: int): (r: string)
    ensures |r| >= 4 && r[0] == 'e'
  {
    (if e < 0 then "e-" else "e+") + ZeroPad(NatText(if e < 0 then -e else e), 2)
  }

  /** The scientific form of the digits `t` (trailing zeros dropped) with
      exponent `e`: one digit, the point and the rest only when there is a
      rest, then the exponent. */
  function ScientificText(t: string, e: int): (r: string)
    requires t != []
    ensures |r| > 0 && r[0] == t[0] && 'e' in r
  {
    var d := StripZeros(t);
    var mantissa := [t[0]] + (if |d| > 1 then "." + d[1..] else "");
    assert (mantissa + ExponentText(e))[|mantissa|] == 'e';
    mantissa + ExponentText(e)
  }

  /** Python's `repr` of a positive float from its shortest digits `t` and
      the position `point` of the decimal point in them (negative: that many
      zeros come between the point and the digits). Outside -3..16 the text
      is scientific, `d.ddde-XX`. */
  function PointText(t: string, point: int): string
    requires t != []
  {
    if point < -3 || point > 16 then ScientificText(t, point - 1)
    else if point <= 0 then "0." + Zeros(-point) + t
    else if point < |t| then t[..point] + "." + t[point..]
    else t + ".0"
  }

  /** The positive float `a / 10^s`, whose shortest digits are those of `a`
      (the caller has dropped trailing zeros after the point). */
  function PositiveText(a: nat, s: nat): string
    requires a > 0
  {
    PointText(NatText(a), |NatText(a)| - s)
  }

  /** Python's `str(f)` for a float that is the decimal `m / 10^s`. */
  function DecimalText(m: int, s: nat): string {
    var n := Normalize(m, s);
    if n.0 == 0 then "0.0"
    else (if n.0 < 0 then "-" else "") + PositiveText(if n.0 < 0 then -n.0 else n.0, n.1)
  }

  /** Sample texts inside the range: no exponent, at least one digit after the point. */
  lemma FixedSamples()
    ensures DecimalText(1, 4) == "0.0001"
    ensures DecimalText(50, 1) == "5.0"
  {
    assert NatText(1) == "1" && NatText(5) == "5";
    assert Normalize(50, 1) == (5, 0);
  }

  /** A sample text below 10^-4: the exponent form, with two exponent digits. */
  lemma ExponentSample()
    ensures DecimalText(1, 5) == "1e-05"
  {
    ExponentOfMinusFive();
    assert NatText(1) == "1" && StripZeros("1") == "1";
    assert ScientificText("1", -5) == "1" + "e-05";
  }

  /** A negative one with a fraction in the mantissa. */
  lemma NegativeExponentSample()
    ensures DecimalText(-25, 6) == "-2.5e-05"
  {
    ExponentOfMinusFive();
    assert NatText(25) == "25" && StripZeros("25") == "25";
    assert ScientificText("25", -5) == "2" + "." + "5" + "e-05";
  }

  lemma ExponentOfMinusFive()
    ensures ExponentText(-5) == "e-05"
  {
    assert NatText(5) == "5";
    assert ZeroPad("5", 2) == "05";
  }

  lemma {:induction false} Pow10Add(x: nat, y: nat)
    ensures Pow10(x + y) == Pow10(x) * Pow10(y)
  {
    if x > 0 {
      Pow10Add(x - 1, y);
    }
  }

  lemma Pow10Monotone(x: nat, y: nat)
    requires x <= y
    ensures Pow10(x) <= Pow10(y)
  {
    Pow10Add(x, y - x);
  }

  /** A positive number lies between the powers of ten its digit count names. */
  lemma {:induction false} NatTextMagnitude(n: nat)
    requires n > 0
    ensures Pow10(|NatText(n)| - 1) <= n < Pow10(|NatText(n)|)
  {
    if n >= 10 {
      NatTextMagnitude(n / 10);
    }
  }

  function Abs(m: int): nat {
    if m < 0 then -m else m
  }

  lemma ScaleCancels(x: nat, y: nat, c: nat)
    requires c >= 1
    ensures x * c < y * c <==> x < y
  {
    if x < y {
      assert y * c == x * c + (y - x) * c;
    } else {
      assert x * c == y * c + (x - y) * c;
    }
  }

  /** The decimal `a / 10^s` is below 10^-4. */
  predicate Tiny(a: nat, s: nat) {
    s >= 4 && a < Pow10(s - 4)
  }

  /** `str` of a non-zero float switches to the exponent form exactly when
      its magnitude `|m| / 10^s` is below 10^-4 or at least 10^16. */
  lemma ExponentFormIffOutOfRange(m: int, s: nat)
    requires m != 0
    ensures 'e' in DecimalText(m, s) <==> Tiny(Abs(m), s) || Abs(m) >= Pow10(s + 16)
  {
    var n := Normalize(m, s);
    var a := Abs(n.0);
    NormalizeKeepsRange(m, s);
    PositiveExponentForm(a, n.1);
    var sign := if n.0 < 0 then "-" else "";
    assert DecimalText(m, s) == sign + PositiveText(a, n.1);
    SignKeepsExponent(sign, PositiveText(a, n.1));
  }

  lemma SignKeepsExponent(sign: string, x: string)
    requires sign == "" || sign == "-"
    ensures 'e' in sign + x <==> 'e' in x
  {
    if 'e' in sign + x {
      var i :| 0 <= i < |sign + x| && (sign + x)[i] == 'e';
      assert x[i - |sign|] == 'e';
    }
    if 'e' in x {
      var i :| 0 <= i < |x| && x[i] == 'e';
      assert (sign + x)[i + |sign|] == 'e';
    }
  }

  /** Dropping trailing zeros keeps the magnitude on the same side of both bounds. */
  lemma NormalizeKeepsRange(m: int, s: nat)
    requires m != 0
    ensures var n := Normalize(m, s);
      && (Tiny(Abs(m), s) <==> Tiny(Abs(n.0), n.1))
      && (Abs(m) >= Pow10(s + 16) <==> Abs(n.0) >= Pow10(n.1 + 16))
  {
    var n := Normalize(m, s);
    var c := Pow10(s - n.1);
    AbsScales(n.0, c);
    TinyScales(Abs(n.0), n.1, s - n.1);
    Pow10Add(n.1 + 16, s - n.1);
    ScaleCancels(Abs(n.0), Pow10(n.1 + 16), c);
  }

  /** `a / 10^s` and `(a * 10^d) / 10^(s + d)` are the same number. */
  lemma TinyScales(a: nat, s: nat, d: nat)
    requires a > 0
    ensures Tiny(a * Pow10(d), s + d) <==> Tiny(a, s)
  {
    var c := Pow10(d);
    ScaleCancels(a, 1, c);
    if s >= 4 {
      Pow10Add(s - 4, d);
      ScaleCancels(a, Pow10(s - 4), c);
    } else if s + d >= 4 {
      Pow10Monotone(s + d - 4, d);
    }
  }

  lemma AbsScales(x: int, c: nat)
    ensures Abs(x * c) == Abs(x) * c
  {
    if x < 0 {
      assert x * c == -((-x) * c);
    }
  }

  /** The same for a positive normalized decimal: the exponent form is used
      exactly when the point falls outside -3..16, that is, when the
      magnitude is out of range. */
  lemma PositiveExponentForm(a: nat, s: nat)
    requires a > 0
    ensures 'e' in PositiveText(a, s) <==> Tiny(a, s) || a >= Pow10(s + 16)
  {
    SmallMagnitude(a, s);
    LargeMagnitude(a, s);
    PointTextExponent(NatText(a), |NatText(a)| - s);
  }

  /** Only the scientific branch writes an `e`. */
  lemma PointTextExponent(t: string, point: int)
    requires t != [] && forall i :: 0 <= i < |t| ==> IsDigit(t[i])
    ensures 'e' in PointText(t, point) <==> point < -3 || point > 16
  {
    if -3 <= point <= 16 {
      FixedFormHasNoExponent(t, point);
    }
  }

  lemma SmallMagnitude(a: nat, s: nat)
    requires a > 0
    ensures Tiny(a, s) <==> |NatText(a)| + 4 <= s
  {
    var k := |NatText(a)|;
    NatTextMagnitude(a);
    if k + 4 <= s {
      Pow10Monotone(k, s - 4);
    } else if s >= 4 {
      Pow10Monotone(s - 4, k - 1);
    }
  }

  lemma LargeMagnitude(a: nat, s: nat)
    requires a > 0
    ensures a >= Pow10(s + 16) <==> |NatText(a)| >= s + 17
  {
    var k := |NatText(a)|;
    NatTextMagnitude(a);
    if k >= s + 17 {
      Pow10Monotone(s + 16, k - 1);
    } else {
      Pow10Monotone(k, s + 16);
    }
  }

  /** A fixed-form text is digits, zeros and a point: no `e`. */
  lemma FixedFormHasNoExponent(t: string, point: int)
    requires forall i :: 0 <= i < |t| ==> IsDigit(t[i])
    requires -3 <= point
    ensures 'e' !in
      (if point <= 0 then "0." + Zeros(-point) + t
       else if point < |t| then t[..point] + "." + t[point..]
       else t + ".0")
  {
  }

  /** Python's `str(j)` as `str.format` applies it to a coordinate. A list or a
      dict is not a coordinate the provider sends; it renders as its brackets. */
  function StrOf(j: Json): string {
    match j
    case JNull => "None"
    case JBool(b) => if b then "True" else "False"
    case JInt(i) => IntText(i)
    case JFloat(m, s) => DecimalText(m, s)
    case JStr(s) => s
    case JArr(_) => "[...]"
    case JObj(_) => "{...}"
  }

  function LowerChar(c: char): char {
    if 'A' <= c <= 'Z' then (c as int - 'A' as int + 'a' as int) as char else c
  }

  /** Python's `str.lower()` on ASCII letters. */
  function Lower(s: string): (r: string)
    ensures |r| == |s|
    ensures forall i {:trigger r[i]} :: 0 <= i < |s| ==> r[i] == LowerChar(s[i])
  {
    if s == [] then [] else [LowerChar(s[0])] + Lower(s[1..])
  }

  lemma LowerAppend(a: string, b: string)
    ensures Lower(a + b) == Lower(a) + Lower(b)
  {
    assert Lower(a + b) == Lower(a) + Lower(b);
  }

  /** Python's `sep.join(parts)`. */
  function Join(sep: string, parts: seq<string>): string {
    if parts == [] then ""
    else if |parts| == 1 then parts[0]
    else parts[0] + sep + Join(sep, parts[1..])
  }

  /** The joined text contains every part. */
  lemma {:induction false} JoinContains(sep: string, parts: seq<string>, k: nat)
    requires k < |parts|
    ensures exists p, q :: Join(sep, parts) == p + parts[k] + q
  {
    if |parts| == 1 {
      assert Join(sep, parts) == "" + parts[0] + "";
    } else if k == 0 {
      assert Join(sep, parts) == "" + parts[0] + (sep + Join(sep, parts[1..]));
    } else {
      JoinContains(sep, parts[1..], k - 1);
      var p, q :| Join(sep, parts[1..]) == p + parts[1..][k - 1] + q;
      assert Join(sep, parts) == (parts[0] + sep + p) + parts[k] + q;
    }
  }

  /** Python's `s.split(c, 1)[0]`: the text before the first `c`, or all of `s`. */
  function BeforeFirst(s: string, c: char): (r: string)
    ensures |r| <= |s| && r == s[..|r|]
    ensures forall i :: 0 <= i < |r| ==> r[i] != c
    ensures |r| == |s| || s[|r|] == c
  {
    if s == [] then []
    else if s[0] == c then []
    else [s[0]] + BeforeFirst(s[1..], c)
  }

  /** The first position at or after `from` that holds `c`. */
  function IndexOf(t: string, c: char, from: nat): (r: Option<nat>)
    requires from <= |t|
    ensures r.Some? ==> from <= r.value < |t| && t[r.value] == c
    ensures r.Some? ==> forall k :: from <= k < r.value ==> t[k] != c
    ensures r.None? ==> forall k :: from <= k < |t| ==> t[k] != c
    decreases |t| - from
  {
    if from == |t| then None
    else if t[from] == c then Some(from)
    else IndexOf(t, c, from + 1)
  }

  /** `Ok(p + v)` for `Ok(v)`; an error is passed on. */
  function Prepend(p: string, r: Result<string, PyError>): Result<string, PyError> {
    match r
    case Ok(v) => Ok(p + v)
    case Err(e) => Err(e)
  }

  /** Python's `t.format(**args)` where every replacement field is a plain name:
      `{{` and `}}` are literal braces, `{name}` is `args[name]` (KeyError when
      absent, IndexError for the positional `{}`), an unmatched brace is a
      ValueError. */
  function Format(t: string, args: map<string, string>): Result<string, PyError>
    decreases |t|
  {
    if t == [] then Ok([])
    else if t[0] == '{' then
      if |t| > 1 && t[1] == '{' then Prepend("{", Format(t[2..], args))
      else if |t| == 1 then Err(ValueError("Single '{' encountered in format string"))
      else
        match IndexOf(t, '}', 1)
        case None => Err(ValueError("expected '}' before end of string"))
        case Some(j) =>
          var name := t[1..j];
          if name == [] then Err(IndexError)
          else if name !in args then Err(KeyError)
          else Prepend(args[name], Format(t[j + 1..], args))
    else if t[0] == '}' then
      if |t| > 1 && t[1] == '}' then Prepend("}", Format(t[2..], args))
      else Err(ValueError("Single '}' encountered in format string"))
    else Prepend([t[0]], Format(t[1..], args))
  }

  predicate NoBraces(s: string) {
    forall i :: 0 <= i < |s| ==> s[i] != '{' && s[i] != '}'
  }

  /** Text without braces is copied through by `format`. */
  lemma {:induction false} FormatLiteral(lit: string, rest: string, args: map<string, string>)
    requires NoBraces(lit)
    ensures Format(lit + rest, args) == Prepend(lit, Format(rest, args))
  {
    if lit != [] {
      assert (lit + rest)[0] == lit[0];
      assert (lit + rest)[1..] == lit[1..] + rest;
      FormatLiteral(lit[1..], rest, args);
      assert Format(lit + rest, args) == Prepend([lit[0]], Prepend(lit[1..], Format(rest, args)));
      match Format(rest, args)
      case Ok(v) =>
        assert [lit[0]] + (lit[1..] + v) == lit + v;
      case Err(e) =>
    } else {
      assert lit + rest == rest;
      match Format(rest, args)
      case Ok(v) =>
        assert lit + v == v;
      case Err(e) =>
    }
  }

  /** A `{name}` field is replaced by the argument of that name. */
  lemma FormatField(name: string, rest: string, args: map<string, string>)
    requires name != [] && NoBraces(name) && name in args
    ensures Format("{" + name + "}" + rest, args) == Prepend(args[name], Format(rest, args))
  {
    var t := "{" + name + "}" + rest;
    assert t[0] == '{' && t[1] == name[0] && t[|name| + 1] == '}';
    assert forall k :: 1 <= k < |name| + 1 ==> t[k] == name[k - 1];
    assert IndexOf(t, '}', 1) == Some(|name| + 1);
    assert t[1..|name| + 1] == name;
    assert t[|name| + 2..] == rest;
  }

  /** A character `format` copies through as itself. */
  type Plain = c: char | c != '{' && c != '}'

  /** A replacement-field name: non-empty, without braces. */
  type FieldName = s: seq<Plain> | |s| > 0 witness "x"

  /** A format template cut into literal text and `{name}` replacement fields. */
  datatype Piece = Text(text: seq<Plain>) | Field(name: FieldName)

  /** The template string the pieces spell. */
  function Template(ps: seq<Piece>): string {
    if ps == [] then ""
    else
      match ps[0]
      case Text(t) => t + Template(ps[1..])
      case Field(n) => "{" + n + "}" + Template(ps[1..])
  }

  /** The text with every field replaced by its argument. */
  function Substitute(ps: seq<Piece>, args: map<string, string>): string {
    if ps == [] then ""
    else
      match ps[0]
      case Text(t) => t + Substitute(ps[1..], args)
      case Field(n) => (if n in args then args[n] else "") + Substitute(ps[1..], args)
  }

  /** Every field the pieces name has an argument. */
  predicate WellFormed(ps: seq<Piece>, args: map<string, string>) {
    forall i :: 0 <= i < |ps| && ps[i].Field? ==> ps[i].name in args
  }

  /** `format` of a well-formed template succeeds and substitutes every field;
      the arguments themselves are copied through unread. */
  lemma {:induction false} FormatTemplate(ps: seq<Piece>, args: map<string, string>)
    requires WellFormed(ps, args)
    ensures Format(Template(ps), args) == Ok(Substitute(ps, args))
  {
    if ps != [] {
      assert WellFormed(ps[1..], args) by {
        forall i | 0 <= i < |ps[1..]| && ps[1..][i].Field? ensures ps[1..][i].name in args {
          assert ps[1..][i] == ps[i + 1];
        }
      }
      FormatTemplate(ps[1..], args);
      match ps[0]
      case Text(t) =>
        FormatLiteral(t, Template(ps[1..]), args);
      case Field(n) =>
        FormatField(n, Template(ps[1..]), args);
    }
  }

  lemma {:induction false} TemplateAppend(a: seq<Piece>, b: seq<Piece>)
    ensures Template(a + b) == Template(a) + Template(b)
    ensures forall args :: Substitute(a + b, args) == Substitute(a, args) + Substitute(b, args)
  {
    if a != [] {
      assert (a + b)[0] == a[0] && (a + b)[1..] == a[1..] + b;
      TemplateAppend(a[1..], b);
    } else {
      assert a + b == b;
    }
  }

  lemma WellFormedAppend(a: seq<Piece>, b: seq<Piece>, args: map<string, string>)
    requires WellFormed(a, args) && WellFormed(b, args)
    ensures WellFormed(a + b, args)
  {
    forall i | 0 <= i < |a + b| && (a + b)[i].Field? ensures (a + b)[i].name in args {
      if i < |a| { assert (a + b)[i] == a[i]; } else { assert (a + b)[i] == b[i - |a|]; }
    }
  }

  /** Three templates written one after the other format to their three
      substitutions one after the other. */
  lemma FormatTemplates3(a: seq<Piece>, b: seq<Piece>, c: seq<Piece>, args: map<string, string>)
    requires WellFormed(a, args) && WellFormed(b, args) && WellFormed(c, args)
    ensures Format(Template(a) + Template(b) + Template(c), args)
      == Ok(Substitute(a, args) + Substitute(b, args) + Substitute(c, args))
  {
    TemplateAppend(a, b);
    TemplateAppend(a + b, c);
    WellFormedAppend(a, b, args);
    WellFormedAppend(a + b, c, args);
    FormatTemplate(a + b + c, args);
  }
}

/** Decimal text of Go integers: `fmt.Sprint` as the writer and `strconv.Atoi` as the reader. */
module Decimal {
  import opened Text

  const MAX_INT: int := 0x7fff_ffff_ffff_ffff
  const MIN_INT: int := -0x8000_0000_0000_0000

  /** Go's `int` on a 64-bit platform. */
  type GoInt = n: int | MIN_INT <= n <= MAX_INT witness 0

  predicate IsDigit(c: char) {
    '0' <= c <= '9'
  }

  function DigitChar(d: nat): char
    requires d < 10
  {
    ('0' as int + d) as char
  }

  function PrintNat(n: nat): string {
    if n < 10 then [DigitChar(n)] else PrintNat(n / 10) + [DigitChar(n % 10)]
  }

  function Print(n: int): string {
    if n < 0 then "-" + PrintNat(-n) else PrintNat(n)
  }

  /** The number a string of digits stands for, if it holds digits only. */
  function ReadNat(s: string): Option<nat> {
    if s == "" then Some(0)
    else
      var last := s[|s| - 1];
      match ReadNat(s[..|s| - 1])
      case None => None
      case Some(v) => if IsDigit(last) then Some(v * 10 + (last as int - '0' as int)) else None
  }

  /** Result of `strconv.Atoi`: on a syntax error the value is 0, out of range it is the nearest bound. */
  datatype Parsed = Parsed(value: GoInt, ok: bool)

  function Clamp(n: int): Parsed {
    if n > MAX_INT then Parsed(MAX_INT, false)
    else if n < MIN_INT then Parsed(MIN_INT, false)
    else Parsed(n, true)
  }

  function Atoi(s: string): Parsed {
    var signed := |s| > 0 && (s[0] == '-' || s[0] == '+');
    var digits := if signed then s[1..] else s;
    if digits == "" then Parsed(0, false)
    else
      match ReadNat(digits)
      case None => Parsed(0, false)
      case Some(v) => Clamp(if signed && s[0] == '-' then 0 - v as int else v as int)
  }

  lemma {:induction false} PrintNatDigits(n: nat)
    ensures PrintNat(n) != "" && ReadNat(PrintNat(n)) == Some(n)
    ensures forall c :: c in PrintNat(n) ==> IsDigit(c)
  {
    if n < 10 {
      var s := [DigitChar(n)];
      assert s[..|s| - 1] == "";
    } else {
      PrintNatDigits(n / 10);
      var s := PrintNat(n / 10) + [DigitChar(n % 10)];
      assert s[..|s| - 1] == PrintNat(n / 10);
    }
  }

  /** The reader recovers every integer the writer prints. */
  lemma RoundTrip(n: GoInt)
    ensures Atoi(Print(n)) == Parsed(n, true)
  {
    var m: int := n;
    PrintNatDigits(if m < 0 then -m else m);
    if m < 0 {
      assert Print(n)[1..] == PrintNat(-m);
    } else {
      assert PrintNat(m)[0] in PrintNat(m);
    }
  }

  lemma PrintInjective(m: GoInt, n: GoInt)
    requires Print(m) == Print(n)
    ensures m == n
  {
    RoundTrip(m);
    RoundTrip(n);
  }

  ghost predicate Canonical(s: string) {
    exists n: GoInt :: s == Print(n)
  }

  /** "The reader selects `id`" and "the writer's text equals `s`" are the same test. */
  ghost predicate ReaderAgreesWithWriter(s: string) {
    forall id: GoInt :: Atoi(s) == Parsed(id, true) <==> s == Print(id)
  }

  /** The node plugin reads the label with `Atoi`, the operator compares it with printed ids: the two
      tests agree exactly on canonical texts and on texts that are no number at all. */
  lemma ReaderAgreesExactly(s: string)
    ensures ReaderAgreesWithWriter(s) <==> Canonical(s) || !Atoi(s).ok
  {
    if Canonical(s) {
      var n: GoInt :| s == Print(n);
      RoundTrip(n);
      forall id: GoInt ensures Atoi(s) == Parsed(id, true) <==> s == Print(id) {
        if s == Print(id) {
          PrintInjective(id, n);
        }
      }
    } else if !Atoi(s).ok {
      forall id: GoInt ensures s != Print(id) {
        RoundTrip(id);
      }
    } else {
      assert Atoi(s) == Parsed(Atoi(s).value, true);
    }
  }

  /** A label such as "07" shows the disagreement: it reads as cache 7 but equals no printed id. */
  lemma ReaderMayDisagree()
    ensures Atoi("07") == Parsed(7, true) && !ReaderAgreesWithWriter("07")
  {
    assert "07"[..1] == "0" && "0"[..0] == "";
    assert ReadNat("0") == Some(0);
    assert ReadNat("07") == Some(7);
    assert Atoi("07") == Parsed(7, true);
    assert Print(7) == ['7'];
  }

  /** Printed non-negative ids hold digits only. */
  lemma PrintDigits(n: GoInt)
    ensures Print(n) != ""
    ensures forall c :: c in Print(n) ==> IsDigit(c) || c == '-'
    ensures n >= 0 ==> forall c :: c in Print(n) ==> IsDigit(c)
  {
    var m: int := n;
    PrintNatDigits(if m < 0 then -m else m);
  }
}

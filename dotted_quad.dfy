/** The textual form of an IPv4 address: `socket.inet_ntoa` (four bytes to
    "a.b.c.d") and the dotted-decimal part of `socket.inet_aton` (back). */
module DottedQuad {
  import opened Wire

  predicate IsDigit(c: char) {
    '0' <= c <= '9'
  }

  predicate AllDigits(s: string) {
    forall i :: 0 <= i < |s| ==> IsDigit(s[i])
  }

  function DigitChar(d: int): (c: char)
    requires 0 <= d < 10
    ensures IsDigit(c)
  {
    (d + '0' as int) as char
  }

  /** Decimal notation of `n` without leading zeros, as `str(n)` gives it. */
  function Decimal(n: nat): (s: string)
    ensures s != [] && AllDigits(s)
  {
    if n < 10 then [DigitChar(n)] else Decimal(n / 10) + [DigitChar(n % 10)]
  }

  /** The number a string of decimal digits denotes. */
  function DigitsValue(s: string): nat
    requires AllDigits(s)
  {
    if s == [] then 0 else DigitsValue(s[..|s| - 1]) * 10 + (s[|s| - 1] as int - '0' as int)
  }

  /** Reading back the decimal notation of a number gives the number. */
  lemma {:induction false} DecimalValue(n: nat)
    ensures DigitsValue(Decimal(n)) == n
  {
    if n >= 10 {
      var s := Decimal(n);
      DecimalValue(n / 10);
      assert s[..|s| - 1] == Decimal(n / 10);
    }
  }

  /** Decimal notation never starts with a zero, except for zero itself. */
  lemma {:induction false} DecimalNoLeadingZero(n: nat)
    ensures Decimal(n)[0] == '0' <==> n == 0
  {
    if n >= 10 {
      DecimalNoLeadingZero(n / 10);
    }
  }

  /** An octet takes one to three digits. */
  lemma DecimalOctetLength(n: Byte)
    ensures 1 <= |Decimal(n)| <= 3
  {
    if n >= 10 {
      if n >= 100 {
        assert |Decimal(n / 10)| == 2;
      }
    }
  }

  /** The longest run of digits at the start of `s`. */
  function LeadingDigits(s: string): (d: string)
    ensures |d| <= |s| && d == s[..|d|] && AllDigits(d)
    ensures |d| < |s| ==> !IsDigit(s[|d|])
  {
    if s == [] || !IsDigit(s[0]) then [] else [s[0]] + LeadingDigits(s[1..])
  }

  lemma {:induction false} LeadingDigitsOf(u: string, v: string)
    requires AllDigits(u)
    requires v == [] || !IsDigit(v[0])
    ensures LeadingDigits(u + v) == u
  {
    if u != [] {
      assert (u + v)[1..] == u[1..] + v;
      LeadingDigitsOf(u[1..], v);
    } else {
      assert u + v == v;
    }
  }

  /** inet_ntoa: the dotted-decimal text of four address bytes, seven to
      fifteen characters long. */
  function Format(q: seq<Byte>): (s: string)
    requires |q| == 4
    ensures 7 <= |s| <= 15
  {
    JoinLength(q);
    Join(q)
  }

  /** The decimal notation of each byte, separated by dots. */
  function Join(q: seq<Byte>): string
    requires q != []
  {
    if |q| == 1 then Decimal(q[0]) else Decimal(q[0]) + "." + Join(q[1..])
  }

  /** `k` octets take `k - 1` dots and one to three digits each. */
  lemma {:induction false} JoinLength(q: seq<Byte>)
    requires q != []
    ensures 2 * |q| - 1 <= |Join(q)| <= 4 * |q| - 1
  {
    DecimalOctetLength(q[0]);
    if |q| > 1 {
      JoinLength(q[1..]);
    }
  }

  /** One decimal component: one to three digits, no leading zero (so octal
      forms are refused), a value below 256. */
  function Component(d: string): Option<Byte>
    requires AllDigits(d)
  {
    if d == [] || |d| > 3 || (d[0] == '0' && |d| > 1) || DigitsValue(d) > 255 then None
    else Some(DigitsValue(d))
  }

  /** Exactly `count` components separated by dots, with nothing after the last. */
  function Components(s: string, count: nat): (r: Option<seq<Byte>>)
    requires count >= 1
    ensures r.Some? ==> |r.value| == count
    decreases count
  {
    var d := LeadingDigits(s);
    var rest := s[|d|..];
    match Component(d)
    case None => None
    case Some(b) =>
      if count == 1 then
        (if rest == [] then Some([b]) else None)
      else if rest == [] || rest[0] != '.' then None
      else
        match Components(rest[1..], count - 1)
        case None => None
        case Some(t) => Some([b] + t)
  }

  /** inet_aton, restricted to the canonical dotted-decimal form "a.b.c.d". */
  function Parse(s: string): (r: Option<seq<Byte>>)
    ensures r.Some? ==> |r.value| == 4
  {
    Components(s, 4)
  }

  /** The decimal notation of an octet is accepted as one component. */
  lemma ComponentOfDecimal(n: Byte)
    ensures Component(Decimal(n)) == Some(n)
  {
    DecimalValue(n);
    DecimalNoLeadingZero(n);
    DecimalOctetLength(n);
  }

  /** The last component: an octet's notation and nothing after it. */
  lemma ComponentsLast(b: Byte)
    ensures Components(Decimal(b), 1) == Some([b])
  {
    var d := Decimal(b);
    LeadingDigitsOf(d, []);
    assert d + [] == d;
    ComponentOfDecimal(b);
  }

  /** A component, a dot, and the remaining components. */
  lemma ComponentsCons(b: Byte, t: string, count: nat, tail: seq<Byte>)
    requires count >= 2
    requires Components(t, count - 1) == Some(tail)
    ensures Components(Decimal(b) + "." + t, count) == Some([b] + tail)
  {
    var d := Decimal(b);
    var rest := "." + t;
    assert d + "." + t == d + rest;
    LeadingDigitsOf(d, rest);
    ComponentOfDecimal(b);
    assert (d + rest)[|d|..] == rest;
    assert rest[1..] == t;
  }

  lemma {:induction false} ComponentsJoin(q: seq<Byte>)
    requires q != []
    ensures Components(Join(q), |q|) == Some(q)
  {
    if |q| == 1 {
      ComponentsLast(q[0]);
      assert [q[0]] == q;
    } else {
      ComponentsJoin(q[1..]);
      ComponentsCons(q[0], Join(q[1..]), |q|, q[1..]);
      assert [q[0]] + q[1..] == q;
    }
  }

  /** Parsing the text inet_ntoa produces gives back the four bytes. */
  lemma ParseFormat(q: seq<Byte>)
    requires |q| == 4
    ensures Parse(Format(q)) == Some(q)
  {
    ComponentsJoin(q);
  }

  /** Distinct addresses have distinct texts, so the text identifies the address. */
  lemma FormatInjective(q1: seq<Byte>, q2: seq<Byte>)
    requires |q1| == 4 && |q2| == 4
    ensures Format(q1) == Format(q2) ==> q1 == q2
  {
    ParseFormat(q1);
    ParseFormat(q2);
  }
}

/**
 * Generic DTMF recognizer properties (section 6.3.3 of VoiceXML 2.0): the
 * no-input, inter-digit and terminating timeouts in milliseconds and the
 * terminating character, read from a property map and rendered as a string.
 */
module DtmfProperties {
  import opened Vxml

  /** The time designation parser ("3s", "250ms"); it is not part of this model. */
  type TimeParser = string -> long

  const PROPERTY_TIMEOUT := "timeout"
  const PROPERTY_INTERDIGIT_TIMEOUT := "interdigittimeout"
  const PROPERTY_TERM_TIMEOUT := "termtimeout"
  const PROPERTY_TERM_CHAR := "termchar"
  const DEFAULT_TERM_TIMEOUT := "0s"
  const DEFAULT_TERM_CHAR := '#'
  const DEFAULT_INTER_DIGIT_TIMEOUT: long := 3000
  const DEFAULT_NO_INPUT_TIMEOUT: long := 30000

  predicate IsDigit(c: char) {
    '0' <= c <= '9'
  }

  /** The decimal digits of `n`, most significant first, without leading zeros. */
  function Digits(n: nat): (r: string)
    ensures |r| >= 1 && forall i :: 0 <= i < |r| ==> IsDigit(r[i])
    ensures n > 0 ==> r[0] != '0'
  {
    if n < 10 then ['0' + n as char] else Digits(n / 10) + ['0' + (n % 10) as char]
  }

  /** The number a string of decimal digits stands for. */
  function DigitsValue(s: string): nat
    requires forall i :: 0 <= i < |s| ==> IsDigit(s[i])
  {
    if s == [] then 0 else 10 * DigitsValue(s[..|s| - 1]) + DigitValue(s[|s| - 1])
  }

  function DigitValue(c: char): (d: nat)
    requires IsDigit(c)
    ensures '0' as int + d == c as int
  {
    assert '0' as int <= c as int;
    c as int - '0' as int
  }

  /** How Java renders a `long` in decimal: a '-' for negative values, then the digits. */
  function Decimal(n: int): (r: string)
    ensures |r| >= 1 && forall i :: 0 <= i < |r| ==> IsDigit(r[i]) || (i == 0 && r[i] == '-')
  {
    if n < 0 then "-" + Digits(-n) else Digits(n)
  }

  /** Reads back a decimal as `Decimal` writes it. */
  function DecimalValue(s: string): int
    requires forall i :: 0 <= i < |s| ==> IsDigit(s[i]) || (i == 0 && s[i] == '-')
  {
    if s != [] && s[0] == '-' then -(DigitsValue(s[1..]) as int) else DigitsValue(s)
  }

  lemma {:induction false} DigitsRoundTrip(n: nat)
    ensures DigitsValue(Digits(n)) == n
  {
    if n >= 10 {
      var d := Digits(n);
      assert d[..|d| - 1] == Digits(n / 10);
      DigitsRoundTrip(n / 10);
    }
  }

  /** A rendered number reads back as itself, so distinct numbers render differently. */
  lemma DecimalRoundTrip(n: int)
    ensures DecimalValue(Decimal(n)) == n
  {
    if n < 0 {
      DigitsRoundTrip(-n);
      assert Decimal(n)[1..] == Digits(-n);
    } else {
      DigitsRoundTrip(n);
    }
  }

  /**
   * The string form of the four properties, in the layout of `toString`:
   * the class name, " [", then `name=value` pairs separated by ", " in the
   * order timeout, interdigittimeout, termtimeout, termchar, then "]".
   */
  function Describe(className: string, timeout: long, interdigittimeout: long, termtimeout: long, termchar: char): (r: string)
    ensures |r| > |className| && r[..|className|] == className && r[|r| - 1] == ']'
  {
    className + " [" + (PROPERTY_TIMEOUT + "=" + (Decimal(timeout as int) + AfterTimeout(interdigittimeout, termtimeout, termchar)))
  }

  function AfterTimeout(interdigittimeout: long, termtimeout: long, termchar: char): (r: string)
    ensures |r| > 0 && r[0] == ','
  {
    ", " + PROPERTY_INTERDIGIT_TIMEOUT + "=" + (Decimal(interdigittimeout as int) + AfterInterdigit(termtimeout, termchar))
  }

  function AfterInterdigit(termtimeout: long, termchar: char): (r: string)
    ensures |r| > 0 && r[0] == ','
  {
    ", " + PROPERTY_TERM_TIMEOUT + "=" + (Decimal(termtimeout as int) + AfterTermtimeout(termchar))
  }

  function AfterTermtimeout(termchar: char): (r: string)
    ensures |r| > 0 && r[0] == ','
  {
    ", " + PROPERTY_TERM_CHAR + "=" + [termchar] + "]"
  }

  lemma StripPrefix(p: string, x: string, y: string)
    requires p + x == p + y
    ensures x == y
  {
    assert x == (p + x)[|p|..];
    assert y == (p + y)[|p|..];
  }

  /** The position of the first ',' in `s`, or its length when there is none. */
  function CommaAt(s: string): (k: nat)
    ensures k <= |s|
  {
    if s == [] then 0 else if s[0] == ',' then 0 else 1 + CommaAt(s[1..])
  }

  lemma {:induction false} CommaAtConcat(a: string, x: string)
    requires ',' !in a && |x| > 0 && x[0] == ','
    ensures CommaAt(a + x) == |a|
  {
    if a != [] {
      assert (a + x)[1..] == a[1..] + x;
      assert (a + x)[0] == a[0];
      CommaAtConcat(a[1..], x);
    }
  }

  /** Two strings that both continue with a ',' after a comma-free part split at the same place. */
  lemma SplitAtComma(a: string, x: string, b: string, y: string)
    requires ',' !in a && ',' !in b && |x| > 0 && |y| > 0 && x[0] == ',' && y[0] == ','
    requires a + x == b + y
    ensures a == b && x == y
  {
    CommaAtConcat(a, x);
    CommaAtConcat(b, y);
    assert a == (a + x)[..|a|];
    assert b == (b + y)[..|b|];
    StripPrefix(a, x, y);
  }

  lemma DecimalCommaFree(n: int)
    ensures ',' !in Decimal(n)
  {
  }

  /** A rendered number followed by a ','-led rest splits back into the number and the rest. */
  lemma {:induction false} SplitField(n1: int, r1: string, n2: int, r2: string)
    requires |r1| > 0 && |r2| > 0 && r1[0] == ',' && r2[0] == ','
    requires Decimal(n1) + r1 == Decimal(n2) + r2
    ensures n1 == n2 && r1 == r2
  {
    DecimalCommaFree(n1);
    DecimalCommaFree(n2);
    SplitAtComma(Decimal(n1), r1, Decimal(n2), r2);
    DecimalRoundTrip(n1);
    DecimalRoundTrip(n2);
  }

  /**
   * The string form determines every property: for one class, two property
   * sets that render alike are alike.
   */
  lemma {:induction false} DescribeInjective(className: string, t1: long, i1: long, tt1: long, c1: char,
                                                t2: long, i2: long, tt2: long, c2: char)
    requires Describe(className, t1, i1, tt1, c1) == Describe(className, t2, i2, tt2, c2)
    ensures t1 == t2 && i1 == i2 && tt1 == tt2 && c1 == c2
  {
    StripPrefix(className + " [",
                PROPERTY_TIMEOUT + "=" + (Decimal(t1 as int) + AfterTimeout(i1, tt1, c1)),
                PROPERTY_TIMEOUT + "=" + (Decimal(t2 as int) + AfterTimeout(i2, tt2, c2)));
    StripPrefix(PROPERTY_TIMEOUT + "=",
                Decimal(t1 as int) + AfterTimeout(i1, tt1, c1), Decimal(t2 as int) + AfterTimeout(i2, tt2, c2));
    SplitField(t1 as int, AfterTimeout(i1, tt1, c1), t2 as int, AfterTimeout(i2, tt2, c2));
    StripPrefix(", " + PROPERTY_INTERDIGIT_TIMEOUT + "=",
                Decimal(i1 as int) + AfterInterdigit(tt1, c1), Decimal(i2 as int) + AfterInterdigit(tt2, c2));
    SplitField(i1 as int, AfterInterdigit(tt1, c1), i2 as int, AfterInterdigit(tt2, c2));
    StripPrefix(", " + PROPERTY_TERM_TIMEOUT + "=",
                Decimal(tt1 as int) + AfterTermtimeout(c1), Decimal(tt2 as int) + AfterTermtimeout(c2));
    SplitField(tt1 as int, AfterTermtimeout(c1), tt2 as int, AfterTermtimeout(c2));
    assert AfterTermtimeout(c1)[|AfterTermtimeout(c1)| - 2] == c1;
  }

  /** The property bag of a DTMF recognizer. */
  class DtmfRecognizerProperties {
    var interdigittimeout: long
    var termtimeout: long
    var termchar: char
    var timeout: long
    /** The run-time class, whose name heads the string form. */
    const className: string
    const parse: TimeParser

    constructor (className: string, parse: TimeParser)
      ensures this.className == className && this.parse == parse
      ensures termtimeout == parse(DEFAULT_TERM_TIMEOUT) && termchar == DEFAULT_TERM_CHAR
      ensures timeout == DEFAULT_NO_INPUT_TIMEOUT && interdigittimeout == DEFAULT_INTER_DIGIT_TIMEOUT
    {
      this.className := className;
      this.parse := parse;
      termtimeout := parse(DEFAULT_TERM_TIMEOUT);
      termchar := DEFAULT_TERM_CHAR;
      timeout := DEFAULT_NO_INPUT_TIMEOUT;
      interdigittimeout := DEFAULT_INTER_DIGIT_TIMEOUT;
    }

    /**
     * Reads the inter-digit timeout, the terminating timeout and the
     * terminating character from `props`; an absent key, or an empty
     * terminating character, leaves its field as it was, and the no-input
     * timeout is not read at all.
     */
    method SetProperties(props: map<string, string>)
      modifies this`interdigittimeout, this`termtimeout, this`termchar
      ensures interdigittimeout == if PROPERTY_INTERDIGIT_TIMEOUT in props
                                   then parse(props[PROPERTY_INTERDIGIT_TIMEOUT]) else old(interdigittimeout)
      ensures termtimeout == if PROPERTY_TERM_TIMEOUT in props
                             then parse(props[PROPERTY_TERM_TIMEOUT]) else old(termtimeout)
      ensures termchar == if PROPERTY_TERM_CHAR in props && props[PROPERTY_TERM_CHAR] != []
                          then props[PROPERTY_TERM_CHAR][0] else old(termchar)
      ensures timeout == old(timeout)
    {
      if PROPERTY_INTERDIGIT_TIMEOUT in props {
        SetInterdigittimeout(props[PROPERTY_INTERDIGIT_TIMEOUT]);
      }
      if PROPERTY_TERM_TIMEOUT in props {
        SetTermtimeout(props[PROPERTY_TERM_TIMEOUT]);
      }
      if PROPERTY_TERM_CHAR in props {
        var value := props[PROPERTY_TERM_CHAR];
        if value != [] {
          termchar := value[0];
        }
      }
    }

    function GetInterdigittimeoutAsMsec(): long
      reads this
    {
      interdigittimeout
    }

    method SetInterdigittimeout(value: string)
      modifies this`interdigittimeout
      ensures GetInterdigittimeoutAsMsec() == parse(value)
    {
      interdigittimeout := parse(value);
    }

    function GetTermtimeoutAsMsec(): long
      reads this
    {
      termtimeout
    }

    method SetTermtimeout(value: string)
      modifies this`termtimeout
      ensures GetTermtimeoutAsMsec() == parse(value)
    {
      termtimeout := parse(value);
    }

    function GetTermchar(): char
      reads this
    {
      termchar
    }

    method SetTermchar(value: char)
      modifies this`termchar
      ensures GetTermchar() == value
    {
      termchar := value;
    }

    function GetTimeoutAsMsec(): long
      reads this
    {
      timeout
    }

    /** Sets the no-input timeout from a time designation. */
    method SetTimeout(value: string)
      modifies this`timeout
      ensures GetTimeoutAsMsec() == parse(value)
    {
      timeout := parse(value);
    }

    /** Sets the no-input timeout in milliseconds. */
    method SetTimeoutMsec(value: long)
      modifies this`timeout
      ensures GetTimeoutAsMsec() == value
    {
      timeout := value;
    }

    /**
     * The class name, then the four properties as `name=value` pairs in a
     * fixed order between brackets.
     */
    function ToString(): (r: string)
      reads this
      ensures |r| > |className| && r[..|className|] == className && r[|r| - 1] == ']'
    {
      Describe(className, timeout, interdigittimeout, termtimeout, termchar)
    }
  }

  /** Two property bags of one class render alike exactly when their properties agree. */
  lemma ToStringDeterminesProperties(a: DtmfRecognizerProperties, b: DtmfRecognizerProperties)
    requires a.className == b.className
    ensures a.ToString() == b.ToString()
            <==> (a.timeout == b.timeout && a.interdigittimeout == b.interdigittimeout
                  && a.termtimeout == b.termtimeout && a.termchar == b.termchar)
  {
    if a.ToString() == b.ToString() {
      DescribeInjective(a.className, a.timeout, a.interdigittimeout, a.termtimeout, a.termchar,
                        b.timeout, b.interdigittimeout, b.termtimeout, b.termchar);
    }
  }
}

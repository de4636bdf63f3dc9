/** Numbers as the report builder reads and prints them: the permissive
    numeric coercion of text cells, Python's `int(x)`, `str(n)` and the
    fixed-point formats `:.2f` and `:,.2f`, and `format_rub`
    (ozon_bot.py:29-30). Amounts are exact reals. */
module Numbers {
  import opened Wrappers
  import opened Strings

  function Abs(x: real): real
  {
    if x < 0.0 then -x else x
  }

  predicate IsDigit(c: char)
  {
    '0' <= c <= '9'
  }

  predicate AllDigits(s: string)
  {
    forall i :: 0 <= i < |s| ==> IsDigit(s[i])
  }

  function DigitValue(c: char): nat
    requires IsDigit(c)
  {
    c as int - '0' as int
  }

  function DigitChar(d: nat): (c: char)
    requires d < 10
    ensures IsDigit(c) && DigitValue(c) == d
  {
    ('0' as int + d) as char
  }

  /** `str(n)` for a natural number: its decimal digits, without leading zeros. */
  function Digits(n: nat): (s: string)
    ensures s != [] && AllDigits(s)
    ensures s[0] == '0' ==> n == 0
    decreases n
  {
    if n < 10 then [DigitChar(n)] else Digits(n / 10) + [DigitChar(n % 10)]
  }

  /** The number a string of decimal digits denotes. */
  function DigitsValue(s: string): nat
    requires AllDigits(s)
    decreases |s|
  {
    if s == [] then 0 else DigitsValue(s[..|s| - 1]) * 10 + DigitValue(s[|s| - 1])
  }

  /** Reading back the digits of `n` gives `n`. */
  lemma {:induction false} DigitsRoundTrip(n: nat)
    ensures DigitsValue(Digits(n)) == n
    decreases n
  {
    if n >= 10 {
      DigitsRoundTrip(n / 10);
      var s := Digits(n);
      assert s[..|s| - 1] == Digits(n / 10);
    }
  }

  function Pow10(k: nat): (p: nat)
    ensures p >= 1
  {
    if k == 0 then 1 else 10 * Pow10(k - 1)
  }

  /** Splits a numeral at its first decimal point: the digits before it and
      the digits after it; without a point the whole string is the integer part. */
  function SplitAtPoint(s: string): (r: (string, string))
    ensures '.' !in r.0
    ensures '.' in s ==> s == r.0 + "." + r.1
    ensures '.' !in s ==> r == (s, [])
  {
    if s == [] then ([], [])
    else if s[0] == '.' then ([], s[1..])
    else
      var (i, f) := SplitAtPoint(s[1..]);
      assert s == [s[0]] + s[1..];
      ([s[0]] + i, f)
  }

  /** The value of a text cell under `pd.to_numeric`: an optionally signed
      decimal numeral, with digits on at least one side of an optional point,
      surrounded by optional whitespace. Anything else does not parse. */
  function ParseDecimal(s: string): Option<real>
  {
    ParseSigned(Strip(s))
  }

  /** A numeral with an optional leading sign. */
  function ParseSigned(t: string): Option<real>
  {
    if t != [] && t[0] == '-' then
      match ParseUnsigned(t[1..])
      case Some(m) => Some(-m)
      case None => None
    else if t != [] && t[0] == '+' then ParseUnsigned(t[1..])
    else ParseUnsigned(t)
  }

  /** Digits, an optional point and more digits, at least one digit in all. */
  function ParseUnsigned(body: string): Option<real>
  {
    var (ip, fp) := SplitAtPoint(body);
    if |ip| + |fp| > 0 && AllDigits(ip) && AllDigits(fp) then
      Some(DigitsValue(ip) as real + DigitsValue(fp) as real / Pow10(|fp|) as real)
    else
      None
  }

  /** A digit string holds no decimal point. */
  lemma DigitsNoPoint(ds: string)
    requires AllDigits(ds)
    ensures '.' !in ds
  {
    assert forall i :: 0 <= i < |ds| ==> ds[i] != '.';
  }

  /** Splitting `a + "." + b` at its first point gives back `a` and `b`
      when `a` holds no point. */
  lemma {:induction false} SplitAtPointOf(a: string, b: string)
    requires '.' !in a
    ensures SplitAtPoint(a + "." + b) == (a, b)
    decreases |a|
  {
    var e := a + "." + b;
    if a == [] {
      assert e == "." + b;
      assert e[1..] == b;
    } else {
      assert e[0] == a[0];
      assert e[1..] == a[1..] + "." + b;
      SplitAtPointOf(a[1..], b);
      assert a == [a[0]] + a[1..];
    }
  }

  /** An integer numeral parses to the number its digits denote. */
  lemma ParseUnsignedDigits(ds: string)
    requires ds != [] && AllDigits(ds)
    ensures ParseUnsigned(ds) == Some(DigitsValue(ds) as real)
  {
    DigitsNoPoint(ds);
    assert SplitAtPoint(ds) == (ds, []);
  }

  /** A numeral with two decimals parses to its value in hundredths. */
  lemma ParseUnsignedFixed2(ip: string, a: nat, b: nat)
    requires ip != [] && AllDigits(ip) && a < 10 && b < 10
    ensures ParseUnsigned(ip + "." + [DigitChar(a), DigitChar(b)])
      == Some(DigitsValue(ip) as real + (10 * a + b) as real / 100.0)
  {
    var fp := [DigitChar(a), DigitChar(b)];
    DigitsNoPoint(ip);
    SplitAtPointOf(ip, fp);
    TwoDigitsValue(a, b);
    assert Pow10(2) == 100;
  }

  /** Rounds to the nearest integer, ties to the even neighbour: the rule
      Python's fixed-point formatting applies to the exact value. */
  function RoundHalfEven(y: real): (n: int)
    ensures -0.5 <= n as real - y <= 0.5
    ensures (n as real - y == 0.5 || y - n as real == 0.5) ==> n % 2 == 0
  {
    var f := y.Floor;
    var d := y - f as real;
    if d < 0.5 then f else if d > 0.5 then f + 1 else if f % 2 == 0 then f else f + 1
  }

  /** The magnitude of `x` in hundredths, as `:.2f` rounds it. */
  function Cents(x: real): nat
  {
    var n := RoundHalfEven(Abs(x) * 100.0);
    if n < 0 then 0 else n
  }

  /** The value a two-decimal rendering of `x` stands for. */
  function Fixed2Value(x: real): real
  {
    if x < 0.0 then -(Cents(x) as real / 100.0) else Cents(x) as real / 100.0
  }

  /** The two-decimal value is within half a hundredth of `x`. */
  lemma Fixed2Close(x: real)
    ensures Abs(Fixed2Value(x) - x) <= 0.005
  {
    var n := RoundHalfEven(Abs(x) * 100.0);
    assert n >= 0;
  }

  /** The `,` format option: a comma between groups of three digits, counted
      from the right. */
  function Group(ds: string): (r: string)
    ensures forall c :: c in r ==> c == ',' || c in ds
    decreases |ds|
  {
    if |ds| <= 3 then ds else Group(ds[..|ds| - 3]) + "," + ds[|ds| - 3..]
  }

  /** Removing the commas of a grouped digit string gives back the digits. */
  lemma {:induction false} GroupUngroup(ds: string)
    requires ',' !in ds
    ensures Without(Group(ds), ',') == ds
    decreases |ds|
  {
    if |ds| <= 3 {
      WithoutAbsent(ds, ',');
    } else {
      var head, tail := ds[..|ds| - 3], ds[|ds| - 3..];
      assert ds == head + tail;
      assert ',' !in head && ',' !in tail;
      var gh := Group(head);
      assert Group(ds) == (gh + ",") + tail;
      assert Without(gh + ",", ',') == head by {
        GroupUngroup(head);
        WithoutConcat(gh, ",", ',');
        assert Without(",", ',') == [];
      }
      assert Without(tail, ',') == tail by { WithoutAbsent(tail, ','); }
      WithoutConcat(gh + ",", tail, ',');
    }
  }

  /** The commas of a grouped numeral stand exactly where a group of three
      characters ends, counting from the right: never first, never last,
      and one for every three digits after the first. */
  lemma {:induction false} GroupCommas(ds: string)
    requires ds != [] && ',' !in ds
    ensures |Group(ds)| == |ds| + (|ds| - 1) / 3
    ensures forall p :: 0 <= p < |Group(ds)| ==> (Group(ds)[p] == ',' <==> p > 0 && (|Group(ds)| - p) % 4 == 0)
    decreases |ds|
  {
    var r := Group(ds);
    if |ds| <= 3 {
      forall p | 0 <= p < |r| ensures r[p] != ',' && (|r| - p) % 4 != 0 {
        assert r[p] in ds;
      }
    } else {
      var head, tail := ds[..|ds| - 3], ds[|ds| - 3..];
      assert ',' !in head && ',' !in tail;
      GroupCommas(head);
      var g := Group(head);
      assert r == g + "," + tail;
      forall p | 0 <= p < |r| ensures r[p] == ',' <==> p > 0 && (|r| - p) % 4 == 0 {
        if p < |g| {
          assert r[p] == g[p];
          ModFourShift(|g| - p);
        } else if p > |g| {
          assert r[p] == tail[p - |g| - 1];
        }
      }
    }
  }

  /** Four more positions from the end keep the position within a group. */
  lemma ModFourShift(a: int)
    ensures (a + 4) % 4 == a % 4
  {
  }

  /** A digit string holds no separator. */
  lemma DigitsNoSeparator(ds: string)
    requires AllDigits(ds)
    ensures ',' !in ds && ' ' !in ds && '.' !in ds
  {
    assert forall i :: 0 <= i < |ds| ==> IsDigit(ds[i]);
  }

  function FormatFixed2(x: real, grouped: bool): string
  {
    (if x < 0.0 then "-" else "") + Unsigned2(Cents(x), grouped)
  }

  /** An amount in hundredths printed with two decimals, without its sign. */
  function Unsigned2(c: nat, grouped: bool): string
  {
    var ip := Digits(c / 100);
    (if grouped then Group(ip) else ip) + "." + Hundredths(c)
  }

  /** The two digits after the point. */
  function Hundredths(c: nat): string
  {
    [DigitChar(c % 100 / 10), DigitChar(c % 100 % 10)]
  }

  /** Percentages: `f"{x:.2f}%"`. */
  function FormatPercent(x: real): string
  {
    FormatFixed2(x, false) + "%"
  }

  /** `format_rub`: `f"{value:,.2f} ₽"` with every comma replaced by a space. */
  function FormatRub(x: real): string
  {
    ReplaceAll(FormatFixed2(x, true) + " ₽", ",", " ")
  }

  /** Python's `int(x)` on a number: truncation toward zero. */
  function Trunc(x: real): (n: int)
    ensures Abs(n as real) <= Abs(x) < Abs(n as real) + 1.0
    ensures n == 0 || ((n > 0) == (x > 0.0))
  {
    if x >= 0.0 then x.Floor else -((-x).Floor)
  }

  /** `str(n)` for an integer. */
  function IntToString(n: int): string
  {
    if n < 0 then "-" + Digits(-n) else Digits(n)
  }

  /** A two-character digit string denotes its two digits. */
  lemma TwoDigitsValue(a: nat, b: nat)
    requires a < 10 && b < 10
    ensures DigitsValue([DigitChar(a), DigitChar(b)]) == 10 * a + b
  {
    var s := [DigitChar(a), DigitChar(b)];
    var one := [DigitChar(a)];
    assert one[..0] == [];
    assert DigitsValue(one) == a;
    assert s[..1] == one;
  }

  /** A numeral that starts with a sign or a digit and ends with a digit is
      not touched by the whitespace strip of `ParseDecimal`. */
  lemma NumeralUnstripped(s: string)
    requires s != [] && (s[0] == '-' || IsDigit(s[0])) && IsDigit(s[|s| - 1])
    ensures ParseDecimal(s) == ParseSigned(s)
  {
    StripUnchanged(s);
  }

  /** `str(n)` parses back to `n`. */
  lemma IntToStringRoundTrip(n: int)
    ensures ParseDecimal(IntToString(n)) == Some(n as real)
  {
    if n < 0 {
      var ds := Digits(-n);
      NaturalRoundTrip(-n);
      ParseMinus(IntToString(n), ds, (-n) as real, n as real);
    } else {
      var ds := Digits(n);
      NaturalRoundTrip(n);
      ParsePlain(IntToString(n), ds, n as real, n as real);
    }
  }

  /** The digits of a natural number parse, unsigned, to that number. */
  lemma NaturalRoundTrip(m: nat)
    ensures ParseUnsigned(Digits(m)) == Some(m as real)
    ensures IsDigit(Digits(m)[0]) && IsDigit(Digits(m)[|Digits(m)| - 1])
  {
    DigitsRoundTrip(m);
    ParseUnsignedDigits(Digits(m));
  }

  /** An amount in hundredths, printed with its point, parses back to itself. */
  lemma Fixed2BodyValue(c: nat)
    ensures ParseUnsigned(Unsigned2(c, false)) == Some(c as real / 100.0)
  {
    var q, r := c / 100, c % 100;
    ParseUnsignedFixed2(Digits(q), r / 10, r % 10);
    DigitsRoundTrip(q);
    assert 10 * (r / 10) + r % 10 == r;
    assert c == 100 * q + r;
    assert c as real == 100.0 * (q as real) + r as real;
  }

  /** A leading minus negates what the rest parses to. */
  lemma ParseSignedMinus(body: string, v: real)
    requires ParseUnsigned(body) == Some(v)
    ensures ParseSigned("-" + body) == Some(-v)
  {
    assert ("-" + body)[1..] == body;
  }

  /** A numeral that starts with a digit parses without a sign. */
  lemma ParseSignedDigit(body: string)
    requires body != [] && IsDigit(body[0])
    ensures ParseSigned(body) == ParseUnsigned(body)
  {
  }

  /** A numeral that begins and ends with a digit parses to its unsigned
      value. The numeral and its value are also given as `s` and `w`, in the
      caller's own terms, so that the conclusion matches the caller's goal
      as written; proving that match at the caller costs the solver more. */
  lemma ParsePlain(s: string, body: string, v: real, w: real)
    requires s == body && w == v
    requires body != [] && IsDigit(body[0]) && IsDigit(body[|body| - 1])
    requires ParseUnsigned(body) == Some(v)
    ensures ParseDecimal(s) == Some(w)
  {
    NumeralUnstripped(body);
    ParseSignedDigit(body);
  }

  /** ... and to its negation with a minus sign in front. */
  lemma ParseMinus(s: string, body: string, v: real, w: real)
    requires s == "-" + body && w == -v
    requires body != [] && IsDigit(body[0]) && IsDigit(body[|body| - 1])
    requires ParseUnsigned(body) == Some(v)
    ensures ParseDecimal(s) == Some(w)
  {
    assert ParseSigned(s) == Some(w) by { ParseSignedMinus(body, v); }
    assert s[|s| - 1] == body[|body| - 1];
    NumeralUnstripped(s);
  }

  /** The rendering of an amount in hundredths begins and ends with a digit. */
  lemma Unsigned2Ends(c: nat)
    ensures Unsigned2(c, false) != []
    ensures IsDigit(Unsigned2(c, false)[0])
    ensures IsDigit(Unsigned2(c, false)[|Unsigned2(c, false)| - 1])
  {
    var ip := Digits(c / 100);
    var h := Hundredths(c);
    assert Unsigned2(c, false) == ip + "." + h;
  }

  /** An amount in hundredths, printed with its point, is a numeral that
      begins and ends with a digit and denotes that amount. */
  lemma Unsigned2Numeral(c: nat)
    ensures Unsigned2(c, false) != []
    ensures IsDigit(Unsigned2(c, false)[0])
    ensures IsDigit(Unsigned2(c, false)[|Unsigned2(c, false)| - 1])
    ensures ParseUnsigned(Unsigned2(c, false)) == Some(c as real / 100.0)
  {
    Unsigned2Ends(c);
    Fixed2BodyValue(c);
  }

  /** A two-decimal rendering is the sign, for a negative amount, followed
      by the magnitude in hundredths. */
  lemma Fixed2Sign(x: real, grouped: bool)
    ensures x < 0.0 ==> FormatFixed2(x, grouped) == "-" + Unsigned2(Cents(x), grouped)
                        && Fixed2Value(x) == -(Cents(x) as real / 100.0)
    ensures x >= 0.0 ==> FormatFixed2(x, grouped) == Unsigned2(Cents(x), grouped)
                         && Fixed2Value(x) == Cents(x) as real / 100.0
  {
    assert "" + Unsigned2(Cents(x), grouped) == Unsigned2(Cents(x), grouped);
  }

  lemma Fixed2RoundTrip(x: real)
    ensures ParseDecimal(FormatFixed2(x, false)) == Some(Fixed2Value(x))
    ensures Abs(Fixed2Value(x) - x) <= 0.005
  {
    Fixed2Close(x);
    var c := Cents(x);
    var s := FormatFixed2(x, false);
    var v := c as real / 100.0;
    Unsigned2Numeral(c);
    Fixed2Sign(x, false);
    if x < 0.0 {
      ParseMinus(s, Unsigned2(c, false), v, Fixed2Value(x));
    } else {
      ParsePlain(s, Unsigned2(c, false), v, Fixed2Value(x));
    }
  }

  /** `format_rub` turns the commas of the grouped rendering into spaces and
      appends the rouble sign. */
  lemma FormatRubMapped(x: real)
    ensures FormatRub(x) == MapChar(FormatFixed2(x, true), ',', ' ') + " ₽"
  {
    var g := FormatFixed2(x, true);
    ReplaceAllChar(g + " ₽", ',', ' ');
    MapCharConcat(g, " ₽", ',', ' ');
    assert MapChar(" ₽", ',', ' ') == " ₽";
  }

  /** The grouped rendering of an amount in hundredths holds no space, and
      without its commas it is the ungrouped rendering. */
  lemma Unsigned2Ungrouped(c: nat)
    ensures ' ' !in Unsigned2(c, true)
    ensures Without(Unsigned2(c, true), ',') == Unsigned2(c, false)
  {
    var ip := Digits(c / 100);
    var h := Hundredths(c);
    var frac := "." + h;
    assert Unsigned2(c, true) == Group(ip) + frac;
    assert Unsigned2(c, false) == ip + frac;
    assert ',' !in frac && ' ' !in frac by {
      assert AllDigits(h);
      DigitsNoSeparator(h);
    }
    assert ' ' !in Group(ip) && Without(Group(ip), ',') == ip by {
      DigitsNoSeparator(ip);
      GroupUngroup(ip);
    }
    assert Without(frac, ',') == frac by { WithoutAbsent(frac, ','); }
    WithoutConcat(Group(ip), frac, ',');
  }

  /** The grouped rendering holds no space, and without its commas it is the
      ungrouped rendering. */
  lemma GroupedUngrouped(x: real)
    ensures ' ' !in FormatFixed2(x, true)
    ensures Without(FormatFixed2(x, true), ',') == FormatFixed2(x, false)
  {
    var c := Cents(x);
    var sign := if x < 0.0 then "-" else "";
    Unsigned2Ungrouped(c);
    assert FormatFixed2(x, true) == sign + Unsigned2(c, true);
    assert FormatFixed2(x, false) == sign + Unsigned2(c, false);
    WithoutConcat(sign, Unsigned2(c, true), ',');
    WithoutAbsent(sign, ',');
  }

  /** What `format_rub` prints: no comma anywhere, the suffix " ₽" after a
      point and exactly two digits, and a numeral whose only separators are
      spaces; with those removed it is the two-decimal rendering, so it reads
      back to within half a kopeck of `x`. */
  lemma FormatRubShape(x: real)
    ensures ',' !in FormatRub(x)
    ensures |FormatRub(x)| > 5 && FormatRub(x)[|FormatRub(x)| - 2..] == " ₽"
    ensures var s := FormatRub(x); s[|s| - 5] == '.' && IsDigit(s[|s| - 4]) && IsDigit(s[|s| - 3])
    ensures Without(FormatRub(x)[..|FormatRub(x)| - 2], ' ') == FormatFixed2(x, false)
    ensures ParseDecimal(Without(FormatRub(x)[..|FormatRub(x)| - 2], ' ')) == Some(Fixed2Value(x))
    ensures Abs(Fixed2Value(x) - x) <= 0.005
  {
    FormatRubReadBack(x);
    FormatRubLayout(x);
  }

  /** Without its rouble sign and its spaces, what `format_rub` prints is the
      two-decimal rendering, and it holds no comma. */
  lemma FormatRubReadBack(x: real)
    ensures ',' !in FormatRub(x)
    ensures |FormatRub(x)| >= 2
    ensures Without(FormatRub(x)[..|FormatRub(x)| - 2], ' ') == FormatFixed2(x, false)
    ensures ParseDecimal(Without(FormatRub(x)[..|FormatRub(x)| - 2], ' ')) == Some(Fixed2Value(x))
    ensures Abs(Fixed2Value(x) - x) <= 0.005
  {
    var g := FormatFixed2(x, true);
    var m := MapChar(g, ',', ' ');
    var s := FormatRub(x);
    FormatRubMapped(x);
    assert s[..|s| - 2] == m;
    assert ',' !in m;
    GroupedUngrouped(x);
    WithoutMapChar(g, ',', ' ');
    Fixed2RoundTrip(x);
  }

  /** The layout of what `format_rub` prints: an optional minus, the whole
      roubles in digits with a space before every group of three counted
      from the right, a point, exactly two digits and the suffix " ₽". */
  lemma FormatRubLayout(x: real)
    ensures var s, k := FormatRub(x), if x < 0.0 then 1 else 0;
      && |s| >= k + 6
      && (x < 0.0 ==> s[0] == '-')
      && s[|s| - 5] == '.' && IsDigit(s[|s| - 4]) && IsDigit(s[|s| - 3]) && s[|s| - 2..] == " ₽"
      && var w := s[k..|s| - 5];
         && Without(w, ' ') == Digits(Cents(x) / 100)
         && (forall p :: 0 <= p < |w| ==> (w[p] == ' ' <==> p > 0 && (|w| - p) % 4 == 0))
         && (forall p :: 0 <= p < |w| && w[p] != ' ' ==> IsDigit(w[p]))
  {
    var c := Cents(x);
    var ip := Digits(c / 100);
    var sign := if x < 0.0 then "-" else "";
    FormatRubParts(x);
    SpacedLayout(FormatRub(x), sign, MapChar(Group(ip), ',', ' '), Hundredths(c));
    SpacedGroups(ip);
  }

  /** Where the parts of a rendering with two decimals and the rouble sign
      stand in it. */
  lemma SpacedLayout(s: string, sign: string, w: string, h: string)
    requires |h| == 2 && AllDigits(h)
    requires s == sign + w + ("." + h) + " ₽"
    ensures |s| == |sign| + |w| + 5
    ensures s[..|sign|] == sign && s[|sign|..|s| - 5] == w
    ensures s[|s| - 5] == '.' && IsDigit(s[|s| - 4]) && IsDigit(s[|s| - 3]) && s[|s| - 2..] == " ₽"
  {
    assert s[|s| - 4..|s| - 2] == h;
  }

  /** `format_rub` spelled out: sign, spaced whole roubles, point and
      hundredths, rouble sign. */
  lemma FormatRubParts(x: real)
    ensures FormatRub(x) == (if x < 0.0 then "-" else "") + MapChar(Group(Digits(Cents(x) / 100)), ',', ' ')
                            + ("." + Hundredths(Cents(x))) + " ₽"
  {
    var c := Cents(x);
    var sign := if x < 0.0 then "-" else "";
    var g := Group(Digits(c / 100));
    var frac := "." + Hundredths(c);
    assert FormatFixed2(x, true) == sign + g + frac;
    assert ',' !in frac by {
      DigitsNoSeparator(Hundredths(c));
    }
    FormatRubMapped(x);
    MapCharMiddle(sign, g, frac, ',', ' ');
  }

  /** A grouped digit string with its commas turned into spaces: a space
      exactly where a group of three ends, counting from the right, digits
      everywhere else, and the digits back once the spaces are removed. */
  lemma SpacedGroups(ds: string)
    requires ds != [] && AllDigits(ds)
    ensures var m := MapChar(Group(ds), ',', ' ');
      && Without(m, ' ') == ds
      && (forall p :: 0 <= p < |m| ==> (m[p] == ' ' <==> p > 0 && (|m| - p) % 4 == 0))
      && (forall p :: 0 <= p < |m| && m[p] != ' ' ==> IsDigit(m[p]))
  {
    var g := Group(ds);
    var m := MapChar(g, ',', ' ');
    DigitsNoSeparator(ds);
    GroupCommas(ds);
    forall p | 0 <= p < |m|
      ensures m[p] == ' ' <==> p > 0 && (|m| - p) % 4 == 0
      ensures m[p] != ' ' ==> IsDigit(m[p])
    {
      assert g[p] == ',' || g[p] in ds;
    }
    assert ' ' !in g by {
      forall i | 0 <= i < |g| ensures g[i] != ' ' {
        assert g[i] in g;
      }
    }
    WithoutMapChar(g, ',', ' ');
    GroupUngroup(ds);
  }

  /** What the percentage lines print: the two-decimal rendering followed by
      "%", with exactly two digits after the point, reading back to within a
      half hundredth of `x`. */
  lemma FormatPercentShape(x: real)
    ensures var s := FormatPercent(x);
      && |s| >= 5 && s[|s| - 1] == '%'
      && s[|s| - 4] == '.' && IsDigit(s[|s| - 3]) && IsDigit(s[|s| - 2])
      && ParseDecimal(s[..|s| - 1]) == Some(Fixed2Value(x))
      && Abs(Fixed2Value(x) - x) <= 0.005
  {
    var c := Cents(x);
    var sign := if x < 0.0 then "-" else "";
    var h := Hundredths(c);
    var s := FormatPercent(x);
    assert FormatFixed2(x, false) == sign + Digits(c / 100) + "." + h;
    assert s[..|s| - 1] == FormatFixed2(x, false);
    Fixed2RoundTrip(x);
  }

  /** The grouped two-decimal rendering is made of a sign, digits, commas and a point. */
  lemma Fixed2GroupedChars(x: real)
    ensures forall c :: c in FormatFixed2(x, true) ==> c == '-' || IsDigit(c) || c == '.' || c == ','
  {
    var c := Cents(x);
    var ip := Digits(c / 100);
    var h := Hundredths(c);
    assert forall d :: d in h ==> IsDigit(d);
    assert forall d :: d in Group(ip) ==> d == ',' || IsDigit(d);
    var u := Group(ip) + "." + h;
    assert Unsigned2(c, true) == u;
    assert forall d :: d in u ==> d == ',' || IsDigit(d) || d == '.';
  }

  /** `format_rub` prints only a sign, digits, a point, spaces and the rouble sign. */
  lemma FormatRubChars(x: real)
    ensures forall c :: c in FormatRub(x) ==> c == '-' || IsDigit(c) || c == '.' || c == ' ' || c == '₽'
  {
    var g := FormatFixed2(x, true);
    Fixed2GroupedChars(x);
    var m := MapChar(g, ',', ' ');
    assert forall i :: 0 <= i < |m| ==> m[i] == '-' || IsDigit(m[i]) || m[i] == '.' || m[i] == ' ' by {
      forall i | 0 <= i < |m| ensures m[i] == '-' || IsDigit(m[i]) || m[i] == '.' || m[i] == ' ' {
        assert g[i] in g;
      }
    }
    FormatRubMapped(x);
  }

  /** `str(n)` prints only a sign and digits. */
  lemma IntToStringChars(n: int)
    ensures forall c :: c in IntToString(n) ==> c == '-' || IsDigit(c)
  {
  }
}

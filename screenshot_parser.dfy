/**
 * The screenshot-filename parser of the local map. The game names a
 * screenshot
 *   YYYY-MM-DD[HH-MM]_X, Y, Z_RX, RY, RZ, RW (N).png
 * (the underscores and an extra "_D.D" field after RW are optional). The
 * pattern is matched from the start of the file's base name; the scanner
 * below reproduces the choices Python's backtracking matcher makes.
 */
module ScreenshotParser {
  import opened Wrappers
  import opened Digits
  import opened LocalMapModels

  /** `-?\d+\.\d+` as matched: sign, whole digits and fraction digits. */
  datatype Decimal = Decimal(negative: bool, whole: string, frac: string)

  predicate WellFormedDecimal(d: Decimal)
  {
    |d.whole| >= 1 && |d.frac| >= 1 && AllDigits(d.whole) && AllDigits(d.frac)
  }

  function SignText(negative: bool): string
  {
    if negative then "-" else ""
  }

  function DecimalText(d: Decimal): string
  {
    SignText(d.negative) + (d.whole + ("." + d.frac))
  }

  /** float() of the matched text, in exact arithmetic. */
  function DecimalValue(d: Decimal): real
    requires WellFormedDecimal(d)
  {
    var magnitude := DigitsValue(d.whole) as real + DigitsValue(d.frac) as real / Pow10(|d.frac|) as real;
    if d.negative then -magnitude else magnitude
  }

  /** The rest of s after the literal p, if s starts with p. */
  function Lit(s: string, p: string): (r: Option<string>)
    ensures r.Some? ==> s == p + r.value
  {
    if |p| <= |s| && s[..|p|] == p then Some(s[|p|..]) else None
  }

  lemma LitOf(p: string, q: string)
    ensures Lit(p + q, p) == Some(q)
  {
    assert (p + q)[..|p|] == p;
  }

  predicate StartsNonDigit(q: string)
  {
    q == [] || !IsDigit(q[0])
  }

  /** `\d+` at the start of s, as long as it can be: the digits and the rest. */
  function RunPrefix(s: string): (r: Option<(string, string)>)
    ensures r.Some? ==> |r.value.0| >= 1 && AllDigits(r.value.0) && StartsNonDigit(r.value.1)
    ensures r.Some? ==> s == r.value.0 + r.value.1
  {
    var n := DigitRun(s);
    if n == 0 then None
    else
      assert s == s[..n] + s[n..];
      Some((s[..n], s[n..]))
  }

  lemma RunPrefixOf(w: string, q: string)
    requires |w| >= 1 && AllDigits(w) && StartsNonDigit(q)
    ensures RunPrefix(w + q) == Some((w, q))
  {
    DigitRunOf(w, q);
    assert (w + q)[..|w|] == w;
    assert (w + q)[|w|..] == q;
  }

  /** The optional '-' of a signed field. */
  function SignPrefix(s: string, signed: bool): (r: (bool, string))
    ensures s == SignText(r.0) + r.1 && (r.0 ==> signed)
  {
    if signed && |s| > 0 && s[0] == '-' then
      assert s == "-" + s[1..];
      (true, s[1..])
    else (false, s)
  }

  lemma SignPrefixOf(negative: bool, q: string, signed: bool)
    requires negative ==> signed
    requires !negative ==> q != [] && IsDigit(q[0])
    ensures SignPrefix(SignText(negative) + q, signed) == (negative, q)
  {
    if negative {
      assert ("-" + q)[1..] == q;
    } else {
      assert "" + q == q;
    }
  }

  /**
   * `-?\d+\.\d+` at the start of s with every repetition as long as it can
   * be (the sign only when `signed`); returns the match and the rest.
   */
  function DecimalPrefix(s: string, signed: bool): (r: Option<(Decimal, string)>)
    ensures r.Some? ==> WellFormedDecimal(r.value.0) && (r.value.0.negative ==> signed)
    ensures r.Some? ==> s == DecimalText(r.value.0) + r.value.1
  {
    var sign := SignPrefix(s, signed);
    match RunPrefix(sign.1)
    case None => None
    case Some(whole) =>
      match Lit(whole.1, ".")
      case None => None
      case Some(u) =>
        match RunPrefix(u)
        case None => None
        case Some(frac) =>
          var d := Decimal(sign.0, whole.0, frac.0);
          DecimalTextThen(d, frac.1);
          Some((d, frac.1))
  }

  /** The text of a decimal followed by q, regrouped the way the scanner reads it. */
  lemma DecimalTextThen(d: Decimal, q: string)
    ensures DecimalText(d) + q == SignText(d.negative) + (d.whole + ("." + (d.frac + q)))
  {
  }

  /** A decimal's own text followed by a non-digit is read back as that decimal. */
  lemma DecimalPrefixOf(d: Decimal, q: string, signed: bool)
    requires WellFormedDecimal(d) && (d.negative ==> signed) && StartsNonDigit(q)
    ensures DecimalPrefix(DecimalText(d) + q, signed) == Some((d, q))
  {
    var u := d.frac + q;
    var t := d.whole + ("." + u);
    assert DecimalText(d) + q == SignText(d.negative) + t;
    assert d.whole[0] in d.whole;
    SignPrefixOf(d.negative, t, signed);
    RunPrefixOf(d.whole, "." + u);
    LitOf(".", u);
    RunPrefixOf(d.frac, q);
  }

  /** `\d{4}-\d{2}-\d{2}`. */
  predicate IsDateText(d: string)
  {
    |d| == 10 && AllDigits(d[..4]) && d[4] == '-' && AllDigits(d[5..7]) && d[7] == '-' && AllDigits(d[8..])
  }

  /** `\d{2}-\d{2}`. */
  predicate IsTimeText(t: string)
  {
    |t| == 5 && AllDigits(t[..2]) && t[2] == '-' && AllDigits(t[3..])
  }

  /** The groups of one match. */
  datatype ShotFields = ShotFields(date: string, time: string, x: Decimal, y: Decimal, z: Decimal,
                                   rx: Decimal, ry: Decimal, rz: Decimal, rw: Decimal,
                                   extra: Option<Decimal>, index: string)

  /** The groups after z: rx, ry, rz, rw, extra and index. */
  datatype Tail = Tail(rx: Decimal, ry: Decimal, rz: Decimal, rw: Decimal, extra: Option<Decimal>, index: string)

  /** `(?:_(?P<extra>\d+\.\d+))? ` : the optional extra field and the space after it. */
  function ExtraPrefix(s: string): (r: Option<(Option<Decimal>, string)>)
    ensures r.Some? && r.value.0.Some? ==> WellFormedDecimal(r.value.0.value) && !r.value.0.value.negative
  {
    match Lit(s, "_")
    case Some(s1) =>
      (match DecimalPrefix(s1, false)
       case None => None
       case Some(e) =>
         match Lit(e.1, " ")
         case None => None
         case Some(rest) => Some((Some(e.0), rest)))
    case None =>
      match Lit(s, " ")
      case None => None
      case Some(rest) => Some((None, rest))
  }

  /** `\((?P<index>\d+)\)\.png`; whatever follows is not looked at. */
  function IndexPrefix(s: string): (r: Option<string>)
    ensures r.Some? ==> |r.value| >= 1 && AllDigits(r.value)
  {
    match Lit(s, "(")
    case None => None
    case Some(s1) =>
      match RunPrefix(s1)
      case None => None
      case Some(n) => if Lit(n.1, ").png").Some? then Some(n.0) else None
  }

  predicate WellFormedTail(t: Tail)
  {
    && WellFormedDecimal(t.rx) && WellFormedDecimal(t.ry) && WellFormedDecimal(t.rz) && WellFormedDecimal(t.rw)
    && (t.extra.Some? ==> WellFormedDecimal(t.extra.value) && !t.extra.value.negative)
    && |t.index| >= 1 && AllDigits(t.index)
  }

  /** A field followed by its separator, such as `(?P<rx>-?\d+\.\d+), `. */
  function DecimalThen(s: string, sep: string): (r: Option<(Decimal, string)>)
    ensures r.Some? ==> WellFormedDecimal(r.value.0)
    ensures r.Some? ==> s == DecimalText(r.value.0) + (sep + r.value.1)
  {
    match DecimalPrefix(s, true)
    case None => None
    case Some(field) =>
      match Lit(field.1, sep)
      case None => None
      case Some(rest) => Some((field.0, rest))
  }

  lemma DecimalThenOf(d: Decimal, sep: string, q: string)
    requires WellFormedDecimal(d) && |sep| >= 1 && !IsDigit(sep[0])
    ensures DecimalThen(DecimalText(d) + (sep + q), sep) == Some((d, q))
  {
    DecimalPrefixOf(d, sep + q, true);
    LitOf(sep, q);
  }

  /** The fields after rw: the optional extra field and the index. */
  function ExtraAndIndex(s: string): (r: Option<(Option<Decimal>, string)>)
    ensures r.Some? && r.value.0.Some? ==> WellFormedDecimal(r.value.0.value) && !r.value.0.value.negative
    ensures r.Some? ==> |r.value.1| >= 1 && AllDigits(r.value.1)
  {
    match ExtraPrefix(s)
    case None => None
    case Some(extra) =>
      match IndexPrefix(extra.1)
      case None => None
      case Some(index) => Some((extra.0, index))
  }

  /** rw, the optional extra field and the index. */
  function RwAndRest(s: string): (r: Option<(Decimal, Option<Decimal>, string)>)
    ensures r.Some? ==> WellFormedDecimal(r.value.0)
    ensures r.Some? && r.value.1.Some? ==> WellFormedDecimal(r.value.1.value) && !r.value.1.value.negative
    ensures r.Some? ==> |r.value.2| >= 1 && AllDigits(r.value.2)
  {
    match DecimalPrefix(s, true)
    case None => None
    case Some(rw) =>
      match ExtraAndIndex(rw.1)
      case None => None
      case Some(rest) => Some((rw.0, rest.0, rest.1))
  }

  /** Everything from rx to the end of the pattern; no choice is left here. */
  function TailFrom(s: string): (r: Option<Tail>)
    ensures r.Some? ==> WellFormedTail(r.value)
  {
    match DecimalThen(s, ", ")
    case None => None
    case Some(rx) =>
      match DecimalThen(rx.1, ", ")
      case None => None
      case Some(ry) =>
        match DecimalThen(ry.1, ", ")
        case None => None
        case Some(rz) =>
          match RwAndRest(rz.1)
          case None => None
          case Some(rest) => Some(Tail(rx.0, ry.0, rz.0, rest.0, rest.1, rest.2))
  }

  /** `_?` then the tail: with the underscore when that works, else without it. */
  function AfterZ(rest: string): (r: Option<Tail>)
    ensures r.Some? ==> WellFormedTail(r.value)
  {
    if |rest| > 0 && rest[0] == '_' && TailFrom(rest[1..]).Some? then TailFrom(rest[1..]) else TailFrom(rest)
  }

  /**
   * The z group with fraction length `len` or shorter: the matcher tries the
   * longest fraction first and gives digits back to rx only when the rest of
   * the pattern fails.
   */
  function ZWithFraction(negative: bool, whole: string, digits: string, rest: string, len: nat): (r: Option<(Decimal, Tail)>)
    requires len <= |digits| && |whole| >= 1 && AllDigits(whole) && AllDigits(digits)
    ensures r.Some? ==> WellFormedDecimal(r.value.0) && WellFormedTail(r.value.1)
    decreases len
  {
    if len == 0 then None
    else match AfterZ(digits[len..] + rest)
      case Some(tail) =>
        assert forall c :: c in digits[..len] ==> c in digits;
        Some((Decimal(negative, whole, digits[..len]), tail))
      case None => ZWithFraction(negative, whole, digits, rest, len - 1)
  }

  /** The fraction of z and everything after it, for a given sign and whole part. */
  function ZFraction(negative: bool, whole: string, u: string): (r: Option<(Decimal, Tail)>)
    requires |whole| >= 1 && AllDigits(whole)
    ensures r.Some? ==> WellFormedDecimal(r.value.0) && WellFormedTail(r.value.1)
  {
    var f := DigitRun(u);
    ZWithFraction(negative, whole, u[..f], u[f..], f)
  }

  /** z and everything after it. */
  function ZAndTail(s: string): (r: Option<(Decimal, Tail)>)
    ensures r.Some? ==> WellFormedDecimal(r.value.0) && WellFormedTail(r.value.1)
  {
    var sign := SignPrefix(s, true);
    match RunPrefix(sign.1)
    case None => None
    case Some(whole) =>
      match Lit(whole.1, ".")
      case None => None
      case Some(u) => ZFraction(sign.0, whole.0, u)
  }

  /** The date, the time and what follows the ']'. */
  function Header(s: string): (r: Option<(string, string, string)>)
    ensures r.Some? ==> IsDateText(r.value.0) && IsTimeText(r.value.1)
  {
    if |s| < 17 || !IsDateText(s[..10]) || s[10] != '[' || !IsTimeText(s[11..16]) || s[16] != ']' then None
    else Some((s[..10], s[11..16], s[17..]))
  }

  /** `_?` and x, y, z and the tail. */
  function Body(s0: string): (r: Option<(Decimal, Decimal, Decimal, Tail)>)
    ensures r.Some? ==> WellFormedDecimal(r.value.0) && WellFormedDecimal(r.value.1)
    ensures r.Some? ==> WellFormedDecimal(r.value.2) && WellFormedTail(r.value.3)
  {
    var s1 := if |s0| > 0 && s0[0] == '_' then s0[1..] else s0;
    match DecimalThen(s1, ", ")
    case None => None
    case Some(x) =>
      match DecimalThen(x.1, ", ")
      case None => None
      case Some(y) =>
        match ZAndTail(y.1)
        case None => None
        case Some(zt) => Some((x.0, y.0, zt.0, zt.1))
  }

  /** PATTERN.match on a base name. */
  function MatchName(s: string): (r: Option<ShotFields>)
    ensures r.Some? ==> WellFormedFields(r.value)
  {
    match Header(s)
    case None => None
    case Some(h) =>
      match Body(h.2)
      case None => None
      case Some(b) =>
        var t := b.3;
        Some(ShotFields(h.0, h.1, b.0, b.1, b.2, t.rx, t.ry, t.rz, t.rw, t.extra, t.index))
  }

  // ------------------------------------------------------------ the canonical name

  predicate WellFormedFields(f: ShotFields)
  {
    && IsDateText(f.date) && IsTimeText(f.time)
    && WellFormedDecimal(f.x) && WellFormedDecimal(f.y) && WellFormedDecimal(f.z)
    && WellFormedDecimal(f.rx) && WellFormedDecimal(f.ry) && WellFormedDecimal(f.rz) && WellFormedDecimal(f.rw)
    && (f.extra.Some? ==> WellFormedDecimal(f.extra.value) && !f.extra.value.negative)
    && |f.index| >= 1 && AllDigits(f.index)
  }

  function ExtraText(extra: Option<Decimal>): string
  {
    if extra.Some? then "_" + DecimalText(extra.value) else ""
  }

  function IndexText(index: string, trailing: string): string
  {
    "(" + (index + (").png" + trailing))
  }

  function TailText(t: Tail, trailing: string): string
  {
    DecimalText(t.rx) + (", " + (DecimalText(t.ry) + (", " + (DecimalText(t.rz) + (", " + (DecimalText(t.rw) +
      (ExtraText(t.extra) + (" " + IndexText(t.index, trailing)))))))))
  }

  /** The name the game writes for these fields (both underscores present), followed by any text. */
  function Render(f: ShotFields, trailing: string): string
  {
    f.date + ("[" + (f.time + ("]_" + (DecimalText(f.x) + (", " + (DecimalText(f.y) + (", " + (DecimalText(f.z) +
      ("_" + TailText(Tail(f.rx, f.ry, f.rz, f.rw, f.extra, f.index), trailing))))))))))
  }

  lemma IndexPrefixOf(index: string, trailing: string)
    requires |index| >= 1 && AllDigits(index)
    ensures IndexPrefix(IndexText(index, trailing)) == Some(index)
  {
    LitOf("(", index + (").png" + trailing));
    RunPrefixOf(index, ").png" + trailing);
    LitOf(").png", trailing);
  }

  lemma ExtraFieldOf(e: Decimal, q: string)
    requires WellFormedDecimal(e) && !e.negative
    ensures ExtraPrefix("_" + (DecimalText(e) + (" " + q))) == Some((Some(e), q))
  {
    LitOf("_", DecimalText(e) + (" " + q));
    DecimalPrefixOf(e, " " + q, false);
    LitOf(" ", q);
  }

  lemma NoExtraFieldOf(q: string)
    ensures ExtraPrefix(" " + q) == Some((None, q))
  {
    assert (" " + q)[0] == ' ';
    LitOf(" ", q);
  }

  lemma ExtraPrefixOf(extra: Option<Decimal>, q: string)
    requires extra.Some? ==> WellFormedDecimal(extra.value) && !extra.value.negative
    ensures ExtraPrefix(ExtraText(extra) + (" " + q)) == Some((extra, q))
  {
    if extra.Some? {
      assert ExtraText(extra) + (" " + q) == "_" + (DecimalText(extra.value) + (" " + q));
      ExtraFieldOf(extra.value, q);
    } else {
      assert ExtraText(extra) + (" " + q) == " " + q;
      NoExtraFieldOf(q);
    }
  }

  lemma ExtraAndIndexOf(extra: Option<Decimal>, index: string, trailing: string)
    requires extra.Some? ==> WellFormedDecimal(extra.value) && !extra.value.negative
    requires |index| >= 1 && AllDigits(index)
    ensures ExtraAndIndex(ExtraText(extra) + (" " + IndexText(index, trailing))) == Some((extra, index))
  {
    ExtraPrefixOf(extra, IndexText(index, trailing));
    IndexPrefixOf(index, trailing);
  }

  lemma RwAndRestOf(rw: Decimal, extra: Option<Decimal>, index: string, trailing: string)
    requires WellFormedDecimal(rw)
    requires extra.Some? ==> WellFormedDecimal(extra.value) && !extra.value.negative
    requires |index| >= 1 && AllDigits(index)
    ensures RwAndRest(DecimalText(rw) + (ExtraText(extra) + (" " + IndexText(index, trailing)))) == Some((rw, extra, index))
  {
    var afterRw := ExtraText(extra) + (" " + IndexText(index, trailing));
    assert afterRw[0] == '_' || afterRw[0] == ' ';
    DecimalPrefixOf(rw, afterRw, true);
    ExtraAndIndexOf(extra, index, trailing);
  }

  lemma {:induction false} TailRoundTrip(t: Tail, trailing: string)
    requires WellFormedTail(t)
    ensures TailFrom(TailText(t, trailing)) == Some(t)
  {
    var afterRw := ExtraText(t.extra) + (" " + IndexText(t.index, trailing));
    var s6 := DecimalText(t.rw) + afterRw;
    var s4 := DecimalText(t.rz) + (", " + s6);
    var s2 := DecimalText(t.ry) + (", " + s4);
    DecimalThenOf(t.rx, ", ", s2);
    DecimalThenOf(t.ry, ", ", s4);
    DecimalThenOf(t.rz, ", ", s6);
    RwAndRestOf(t.rw, t.extra, t.index, trailing);
  }

  lemma HeaderOf(date: string, time: string, q: string)
    requires IsDateText(date) && IsTimeText(time)
    ensures Header(date + ("[" + (time + ("]" + q)))) == Some((date, time, q))
  {
    var s := date + ("[" + (time + ("]" + q)));
    assert s[..10] == date && s[10] == '[' && s[11..16] == time && s[16] == ']';
    assert s[17..] == q;
  }

  lemma BodyOf(x: Decimal, y: Decimal, z: Decimal, tt: string, tail: Tail)
    requires WellFormedDecimal(x) && WellFormedDecimal(y) && WellFormedDecimal(z) && TailFrom(tt) == Some(tail)
    ensures Body("_" + (DecimalText(x) + (", " + (DecimalText(y) + (", " + (DecimalText(z) + ("_" + tt))))))) == Some((x, y, z, tail))
  {
    var s5 := DecimalText(z) + ("_" + tt);
    var s3 := DecimalText(y) + (", " + s5);
    var s1 := DecimalText(x) + (", " + s3);
    assert ("_" + s1)[1..] == s1;
    DecimalThenOf(x, ", ", s3);
    DecimalThenOf(y, ", ", s5);
    ZAndTailOf(z, tt, tail);
  }

  /**
   * The canonical name of well-formed fields, with any text after ".png",
   * matches and gives back exactly those fields.
   */
  lemma {:induction false} RenderRoundTrip(f: ShotFields, trailing: string)
    requires WellFormedFields(f)
    ensures MatchName(Render(f, trailing)) == Some(f)
  {
    var tail := Tail(f.rx, f.ry, f.rz, f.rw, f.extra, f.index);
    var tt := TailText(tail, trailing);
    var body := "_" + (DecimalText(f.x) + (", " + (DecimalText(f.y) + (", " + (DecimalText(f.z) + ("_" + tt))))));
    assert Render(f, trailing) == f.date + ("[" + (f.time + ("]" + body)));
    HeaderOf(f.date, f.time, body);
    TailRoundTrip(tail, trailing);
    BodyOf(f.x, f.y, f.z, tt, tail);
  }

  /** With the underscore present, z keeps its whole fraction. */
  lemma ZAndTailOf(z: Decimal, tt: string, tail: Tail)
    requires WellFormedDecimal(z) && TailFrom(tt) == Some(tail)
    ensures ZAndTail(DecimalText(z) + ("_" + tt)) == Some((z, tail))
  {
    var u := z.frac + ("_" + tt);
    var t := z.whole + ("." + u);
    DecimalTextThen(z, "_" + tt);
    assert z.whole[0] in z.whole;
    SignPrefixOf(z.negative, t, true);
    RunPrefixOf(z.whole, "." + u);
    LitOf(".", u);
    ZFractionOf(z, tt, tail);
  }

  lemma ZFractionOf(z: Decimal, tt: string, tail: Tail)
    requires WellFormedDecimal(z) && TailFrom(tt) == Some(tail)
    ensures ZFraction(z.negative, z.whole, z.frac + ("_" + tt)) == Some((z, tail))
  {
    var u := z.frac + ("_" + tt);
    DigitRunOf(z.frac, "_" + tt);
    assert u[..|z.frac|] == z.frac && u[|z.frac|..] == "_" + tt;
    AfterUnderscore(tt, tail);
    FullFraction(z, "_" + tt, tail);
  }

  lemma AfterUnderscore(tt: string, tail: Tail)
    requires TailFrom(tt) == Some(tail)
    ensures AfterZ("_" + tt) == Some(tail)
  {
    assert ("_" + tt)[1..] == tt;
  }

  lemma FullFraction(z: Decimal, rest: string, tail: Tail)
    requires WellFormedDecimal(z) && AfterZ(rest) == Some(tail)
    ensures ZWithFraction(z.negative, z.whole, z.frac, rest, |z.frac|) == Some((z, tail))
  {
    assert z.frac[|z.frac|..] + rest == rest;
    assert z.frac[..|z.frac|] == z.frac;
  }

  // ------------------------------------------------------------ dates

  datatype DateTime = DateTime(year: nat, month: nat, day: nat, hour: nat, minute: nat)

  predicate IsLeapYear(y: nat)
  {
    y % 4 == 0 && (y % 100 != 0 || y % 400 == 0)
  }

  function DaysInMonth(y: nat, m: nat): nat
    requires 1 <= m <= 12
  {
    if m == 2 then (if IsLeapYear(y) then 29 else 28)
    else if m == 4 || m == 6 || m == 9 || m == 11 then 30
    else 31
  }

  /** A real calendar date and time of day, as datetime accepts it. */
  predicate ValidDateTime(t: DateTime)
  {
    1 <= t.year && 1 <= t.month <= 12 && 1 <= t.day <= DaysInMonth(t.year, t.month) && t.hour <= 23 && t.minute <= 59
  }

  /**
   * strptime of "date HH:MM" (the time's '-' rewritten to ':') with
   * "%Y-%m-%d %H:%M": the numbers the fields spell, or None when they name
   * no real moment.
   */
  function Timestamp(date: string, time: string): (r: Option<DateTime>)
    requires IsDateText(date) && IsTimeText(time)
    ensures r.Some? ==> ValidDateTime(r.value)
  {
    var t := DateTime(DigitsValue(date[..4]), DigitsValue(date[5..7]), DigitsValue(date[8..]),
                      DigitsValue(time[..2]), DigitsValue(time[3..]));
    if ValidDateTime(t) then Some(t) else None
  }

  // ------------------------------------------------------------ parse

  datatype Rotation = Rotation(x: real, y: real, z: real, w: real)

  datatype PlayerPosition = PlayerPosition(position: Position3D, rotation: Rotation, mapId: string,
                                           timestamp: DateTime, screenshotFilename: string)

  predicate NoSeparator(s: string)
  {
    '/' !in s && '\\' !in s
  }

  /** os.path.basename as on Windows: the text after the last '/' or '\'. */
  function Basename(path: string): (r: string)
    ensures '/' !in r && '\\' !in r
    ensures |r| <= |path| && r == path[|path| - |r|..]
    ensures |r| < |path| ==> path[|path| - |r| - 1] == '/' || path[|path| - |r| - 1] == '\\'
  {
    if path == [] then []
    else if path[|path| - 1] == '/' || path[|path| - 1] == '\\' then []
    else
      var r := Basename(path[..|path| - 1]) + [path[|path| - 1]];
      assert path[..|path| - 1][|path| - 1 - (|r| - 1)..] + [path[|path| - 1]] == path[|path| - |r|..];
      r
  }

  /** A name without separators is its own base name, also below any directory. */
  lemma {:induction false} BasenameOf(dir: string, name: string)
    requires NoSeparator(name)
    requires dir == [] || dir[|dir| - 1] == '/' || dir[|dir| - 1] == '\\'
    ensures Basename(dir + name) == name
    decreases |name|
  {
    if name == [] {
      BasenameAtSeparator(dir);
    } else {
      var init := name[..|name| - 1];
      var last := name[|name| - 1];
      NoSeparatorSplit(name);
      BasenameOf(dir, init);
      assert (dir + init) + [last] == dir + name;
      BasenameStep(dir + init, last, dir + name);
    }
  }

  lemma BasenameAtSeparator(dir: string)
    requires dir == [] || dir[|dir| - 1] == '/' || dir[|dir| - 1] == '\\'
    ensures Basename(dir + []) == []
  {
    assert dir + [] == dir;
  }

  lemma NoSeparatorSplit(name: string)
    requires NoSeparator(name) && name != []
    ensures NoSeparator(name[..|name| - 1])
    ensures name[|name| - 1] != '/' && name[|name| - 1] != '\\'
    ensures name[..|name| - 1] + [name[|name| - 1]] == name
  {
    assert name[|name| - 1] in name;
    assert forall c :: c in name[..|name| - 1] ==> c in name;
  }

  lemma BasenameStep(p: string, c: char, q: string)
    requires c != '/' && c != '\\' && q == p + [c]
    ensures Basename(q) == Basename(p) + [c]
  {
    assert q[..|p|] == p;
  }

  /** The timestamp the fields of a match give, if they name a real moment. */
  function FieldsTimestamp(f: ShotFields): Option<DateTime>
    requires WellFormedFields(f)
  {
    Timestamp(f.date, f.time)
  }

  /** The position, rotation, map and name parse reports for matched fields. */
  function FieldsPosition(f: ShotFields, ts: DateTime, mapId: string, name: string): PlayerPosition
    requires WellFormedFields(f)
  {
    PlayerPosition(Position3D(DecimalValue(f.x), DecimalValue(f.y), DecimalValue(f.z)),
                   Rotation(DecimalValue(f.rx), DecimalValue(f.ry), DecimalValue(f.rz), DecimalValue(f.rw)),
                   mapId, ts, name)
  }

  /**
   * parse: None when the base name does not match or its date and time are
   * impossible; otherwise the position (y is the height), the rotation in
   * file order, the given map and the base name.
   */
  function Parse(filename: string, mapId: string): (r: Option<PlayerPosition>)
    ensures r.Some? <==> IsScreenshot(filename) && FieldsTimestamp(MatchName(Basename(filename)).value).Some?
    ensures r.Some? ==> r.value.mapId == mapId && r.value.screenshotFilename == Basename(filename)
    ensures r.Some? ==> ValidDateTime(r.value.timestamp)
  {
    var name := Basename(filename);
    match MatchName(name)
    case None => None
    case Some(f) =>
      match Timestamp(f.date, f.time)
      case None => None
      case Some(ts) => Some(FieldsPosition(f, ts, mapId, name))
  }

  /** is_screenshot: the base name matches, whether or not its date is real. */
  predicate IsScreenshot(filename: string)
  {
    MatchName(Basename(filename)).Some?
  }

  /** Every name parse accepts is a screenshot; the converse fails only on impossible dates. */
  lemma ParsedIsScreenshot(filename: string, mapId: string)
    ensures Parse(filename, mapId).Some? ==> IsScreenshot(filename)
    ensures IsScreenshot(filename) && Parse(filename, mapId).None? ==>
      Timestamp(MatchName(Basename(filename)).value.date, MatchName(Basename(filename)).value.time).None?
  {
  }

  lemma DigitsNoSeparator(s: string)
    requires AllDigits(s)
    ensures NoSeparator(s)
  {
    assert !IsDigit('/') && !IsDigit('\\');
  }

  lemma DecimalNoSeparator(d: Decimal)
    requires WellFormedDecimal(d)
    ensures NoSeparator(DecimalText(d))
  {
    DigitsNoSeparator(d.whole);
    DigitsNoSeparator(d.frac);
  }

  lemma ConcatNoSeparator(a: string, b: string)
    requires NoSeparator(a) && NoSeparator(b)
    ensures NoSeparator(a + b)
  {
    assert forall c :: c in a + b ==> c in a || c in b;
  }

  lemma ExtraNoSeparator(extra: Option<Decimal>)
    requires extra.Some? ==> WellFormedDecimal(extra.value)
    ensures NoSeparator(ExtraText(extra))
  {
    if extra.Some? {
      DecimalNoSeparator(extra.value);
      ConcatNoSeparator("_", DecimalText(extra.value));
    }
  }

  lemma IndexNoSeparator(index: string, trailing: string)
    requires AllDigits(index) && NoSeparator(trailing)
    ensures NoSeparator(IndexText(index, trailing))
  {
    DigitsNoSeparator(index);
    ConcatNoSeparator(").png", trailing);
    ConcatNoSeparator(index, ").png" + trailing);
    ConcatNoSeparator("(", index + (").png" + trailing));
  }

  lemma TailNoSeparator(t: Tail, trailing: string)
    requires WellFormedTail(t) && NoSeparator(trailing)
    ensures NoSeparator(TailText(t, trailing))
  {
    var s6 := " " + IndexText(t.index, trailing);
    IndexNoSeparator(t.index, trailing);
    ConcatNoSeparator(" ", IndexText(t.index, trailing));
    var s5 := ExtraText(t.extra) + s6;
    ExtraNoSeparator(t.extra);
    ConcatNoSeparator(ExtraText(t.extra), s6);
    var s4 := DecimalText(t.rw) + s5;
    DecimalNoSeparator(t.rw);
    ConcatNoSeparator(DecimalText(t.rw), s5);
    var s3 := DecimalText(t.rz) + (", " + s4);
    DecimalNoSeparator(t.rz);
    ConcatNoSeparator(", ", s4);
    ConcatNoSeparator(DecimalText(t.rz), ", " + s4);
    var s2 := DecimalText(t.ry) + (", " + s3);
    DecimalNoSeparator(t.ry);
    ConcatNoSeparator(", ", s3);
    ConcatNoSeparator(DecimalText(t.ry), ", " + s3);
    DecimalNoSeparator(t.rx);
    ConcatNoSeparator(", ", s2);
    ConcatNoSeparator(DecimalText(t.rx), ", " + s2);
  }

  lemma RenderNoSeparator(f: ShotFields, trailing: string)
    requires WellFormedFields(f) && NoSeparator(trailing)
    ensures NoSeparator(Render(f, trailing))
  {
    assert f.date == f.date[..4] + f.date[4..5] + f.date[5..7] + f.date[7..8] + f.date[8..];
    DigitsNoSeparator(f.date[..4]);
    DigitsNoSeparator(f.date[5..7]);
    DigitsNoSeparator(f.date[8..]);
    assert f.time == f.time[..2] + f.time[2..3] + f.time[3..];
    DigitsNoSeparator(f.time[..2]);
    DigitsNoSeparator(f.time[3..]);
    DecimalNoSeparator(f.x);
    DecimalNoSeparator(f.y);
    DecimalNoSeparator(f.z);
    TailNoSeparator(Tail(f.rx, f.ry, f.rz, f.rw, f.extra, f.index), trailing);
  }

  /**
   * A screenshot the game names for well-formed fields with a real date,
   * stored in any directory and with any separator-free text after ".png",
   * parses to exactly those numbers, that moment, the given map and the
   * name itself.
   */
  lemma {:induction false} ParseRendered(dir: string, f: ShotFields, trailing: string, mapId: string)
    requires WellFormedFields(f) && NoSeparator(trailing)
    requires dir == [] || dir[|dir| - 1] == '/' || dir[|dir| - 1] == '\\'
    requires Timestamp(f.date, f.time).Some?
    ensures Parse(dir + Render(f, trailing), mapId) ==
      Some(FieldsPosition(f, Timestamp(f.date, f.time).value, mapId, Render(f, trailing)))
    ensures IsScreenshot(dir + Render(f, trailing))
  {
    RenderNoSeparator(f, trailing);
    BasenameOf(dir, Render(f, trailing));
    RenderRoundTrip(f, trailing);
  }
}

module ScreenshotExamples {
  import opened Wrappers
  import opened Digits
  import opened LocalMapModels
  import opened ScreenshotParser

  const DocFields := ShotFields("2024-12-05", "14-32", Decimal(false, "123", "45"), Decimal(false, "67", "89"),
                                Decimal(true, "10", "23"), Decimal(false, "0", "1234"), Decimal(false, "0", "5678"),
                                Decimal(false, "0", "9012"), Decimal(false, "0", "3456"), None, "0")

  lemma DocFieldsWellFormed()
    ensures WellFormedFields(DocFields)
  {
    assert AllDigits("2024") && AllDigits("12") && AllDigits("05") && AllDigits("14") && AllDigits("32");
  }

  lemma DocYearValue()
    ensures DigitsValue("2024") == 2024
  {
    assert "2024"[..3] == "202";
    assert "202"[..2] == "20";
    assert "20"[..1] == "2";
  }

  lemma DocMonthDayValues()
    ensures DigitsValue("12") == 12 && DigitsValue("05") == 5
  {
    assert "12"[..1] == "1" && "1"[..0] == "";
    assert "05"[..1] == "0" && "0"[..0] == "";
  }

  lemma DocClockValues()
    ensures DigitsValue("14") == 14 && DigitsValue("32") == 32
  {
    assert "14"[..1] == "1" && "1"[..0] == "";
    assert "32"[..1] == "3" && "3"[..0] == "";
  }

  lemma DocTimestamp()
    ensures Timestamp(DocFields.date, DocFields.time) == Some(DateTime(2024, 12, 5, 14, 32))
  {
    var date := DocFields.date;
    var time := DocFields.time;
    assert date[..4] == "2024" && date[5..7] == "12" && date[8..] == "05";
    assert time[..2] == "14" && time[3..] == "32";
    DocYearValue();
    DocMonthDayValues();
    DocClockValues();
  }

  lemma DocPositionValues()
    ensures DecimalValue(DocFields.x) == 123.45 && DecimalValue(DocFields.y) == 67.89
    ensures DecimalValue(DocFields.z) == -10.23
  {
    assert "123"[..2] == "12" && "12"[..1] == "1" && "1"[..0] == "";
    assert DigitsValue("123") == 123;
    assert "45"[..1] == "4" && "4"[..0] == "";
    assert DigitsValue("45") == 45;
    assert "67"[..1] == "6" && "6"[..0] == "";
    assert DigitsValue("67") == 67;
    assert "89"[..1] == "8" && "8"[..0] == "";
    assert DigitsValue("89") == 89;
    assert "10"[..1] == "1";
    assert DigitsValue("10") == 10;
    assert "23"[..1] == "2" && "2"[..0] == "";
    assert DigitsValue("23") == 23;
    assert Pow10(2) == 100;
  }

  lemma FourDigitsValue(s: string)
    requires |s| == 4 && AllDigits(s)
    ensures DigitsValue(s) == DigitValue(s[0]) * 1000 + DigitValue(s[1]) * 100 + DigitValue(s[2]) * 10 + DigitValue(s[3])
  {
    var a, b, c := s[..1], s[..2], s[..3];
    assert c[..2] == b && b[..1] == a && a[..0] == [];
    assert forall ch :: ch in c ==> ch in s;
    assert DigitsValue(a) == DigitValue(s[0]);
    assert DigitsValue(b) == DigitValue(s[0]) * 10 + DigitValue(s[1]);
    assert DigitsValue(c) == DigitsValue(b) * 10 + DigitValue(s[2]);
    assert s[..3] == c;
  }

  lemma DocRotationValues()
    ensures DecimalValue(DocFields.rx) == 0.1234 && DecimalValue(DocFields.ry) == 0.5678
    ensures DecimalValue(DocFields.rz) == 0.9012 && DecimalValue(DocFields.rw) == 0.3456
  {
    assert Pow10(4) == 10000;
    assert DigitsValue("0") == 0;
    FourDigitsValue("1234");
    FourDigitsValue("5678");
    FourDigitsValue("9012");
    FourDigitsValue("3456");
  }

  /**
   * The example in the parser's documentation,
   * 2024-12-05[14-32]_123.45, 67.89, -10.23_0.1234, 0.5678, 0.9012, 0.3456 (0).png,
   * stored under a screenshots directory: y is the height and the rotation
   * keeps the file's order.
   */
  lemma DocumentedName(mapId: string)
    ensures Parse("Screenshots\\" + Render(DocFields, ""), mapId) ==
      Some(PlayerPosition(Position3D(123.45, 67.89, -10.23), Rotation(0.1234, 0.5678, 0.9012, 0.3456), mapId,
                          DateTime(2024, 12, 5, 14, 32), Render(DocFields, "")))
  {
    DocFieldsWellFormed();
    DocTimestamp();
    DocPositionValues();
    DocRotationValues();
    ParseRendered("Screenshots\\", DocFields, "", mapId);
  }

  lemma TwoDigitsValue(s: string)
    requires |s| == 2 && AllDigits(s)
    ensures DigitsValue(s) == DigitValue(s[0]) * 10 + DigitValue(s[1])
  {
    var a := s[..1];
    assert a[..0] == [] && s[0] in s;
    assert DigitsValue(a) == DigitValue(s[0]);
  }

  lemma LeapDay()
    ensures Timestamp("2024-02-29", "10-00") == Some(DateTime(2024, 2, 29, 10, 0))
  {
    var d, t := "2024-02-29", "10-00";
    assert d[..4] == "2024" && d[5..7] == "02" && d[8..] == "29" && t[..2] == "10" && t[3..] == "00";
    FourDigitsValue("2024");
    TwoDigitsValue("02");
    TwoDigitsValue("29");
    TwoDigitsValue("10");
    TwoDigitsValue("00");
  }

  lemma NoLeapDay()
    ensures Timestamp("2023-02-29", "10-00").None?
  {
    var d, t := "2023-02-29", "10-00";
    assert d[..4] == "2023" && d[5..7] == "02" && d[8..] == "29" && t[..2] == "10" && t[3..] == "00";
    FourDigitsValue("2023");
    TwoDigitsValue("02");
    TwoDigitsValue("29");
  }

  lemma NoHourTwentyFour()
    ensures Timestamp("2024-12-05", "24-00").None?
  {
    var t := "24-00";
    assert t[..2] == "24";
    TwoDigitsValue("24");
  }

  /**
   * A name with 29 February 2023 is a screenshot to is_screenshot, but
   * parse rejects it because that day does not exist.
   */
  lemma ImpossibleDateIsScreenshotButNotParsed(mapId: string)
    ensures IsScreenshot(Render(DocFields.(date := "2023-02-29", time := "10-00"), ""))
    ensures Parse(Render(DocFields.(date := "2023-02-29", time := "10-00"), ""), mapId).None?
  {
    var f := DocFields.(date := "2023-02-29", time := "10-00");
    DocFieldsWellFormed();
    assert AllDigits("2023") && AllDigits("02") && AllDigits("29") && AllDigits("10") && AllDigits("00");
    assert WellFormedFields(f);
    NoLeapDay();
    RenderNoSeparator(f, "");
    BasenameOf("", Render(f, ""));
    assert "" + Render(f, "") == Render(f, "");
    RenderRoundTrip(f, "");
  }
}

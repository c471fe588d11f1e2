/**
 Durations as text: the printer and the parser of the time delta parameter.
 */
module TimeDelta {
  import opened Options

  const SECONDS_PER_DAY := 86400
  const MAX_DAYS := 999999999

  /** A normalised duration; only `days` can be negative. */
  datatype Delta = Delta(days: int, seconds: nat, micros: nat) {
    predicate Normal() {
      seconds < SECONDS_PER_DAY && micros < 1000000 && -MAX_DAYS <= days <= MAX_DAYS
    }
  }

  datatype Parsed = Value(delta: Delta) | Invalid | Overflow

  datatype Fields = Fields(weeks: nat, days: nat, hours: nat, minutes: nat, seconds: nat)

  /** `datetime.timedelta(**kwargs)`. */
  function Make(f: Fields): Parsed {
    var seconds := (f.hours * 60 + f.minutes) * 60 + f.seconds;
    var days := f.weeks * 7 + f.days + seconds / SECONDS_PER_DAY;
    if days > MAX_DAYS then Overflow else Value(Delta(days, seconds % SECONDS_PER_DAY, 0))
  }

  // ---------------------------------------------------------------- numbers

  predicate IsDigit(c: char) {
    '0' <= c <= '9'
  }

  function Digit(n: nat): (c: char)
    requires n < 10
    ensures IsDigit(c)
  {
    '0' + n as char
  }

  function DigitValue(c: char): nat
    requires IsDigit(c)
  {
    (c - '0') as nat
  }

  function Print(n: nat): (s: string)
    ensures s != [] && forall c <- s :: IsDigit(c)
  {
    if n < 10 then [Digit(n)] else Print(n / 10) + [Digit(n % 10)]
  }

  function PrintInt(n: int): string {
    if n < 0 then "-" + Print(-n) else Print(n)
  }

  function Number(s: string): nat
    requires forall c <- s :: IsDigit(c)
  {
    if s == [] then 0 else
    assert s[|s|-1] in s && forall c <- s[..|s|-1] :: c in s;
    Number(s[..|s|-1]) * 10 + DigitValue(s[|s|-1])
  }

  lemma {:induction false} NumberOfPrint(n: nat)
    ensures Number(Print(n)) == n
  {
    if n >= 10 {
      NumberOfPrint(n / 10);
      assert Print(n)[..|Print(n)|-1] == Print(n / 10);
    }
  }

  /** How many digits the text starts with. */
  function DigitsAt(s: string): (n: nat)
    ensures n <= |s| && (forall i :: 0 <= i < n ==> IsDigit(s[i])) && (n < |s| ==> !IsDigit(s[n]))
  {
    if s == [] || !IsDigit(s[0]) then 0 else 1 + DigitsAt(s[1..])
  }

  lemma DigitsAtIs(s: string, n: nat)
    requires n <= |s| && (forall i :: 0 <= i < n ==> IsDigit(s[i])) && (n < |s| ==> !IsDigit(s[n]))
    ensures DigitsAt(s) == n
  {
  }

  lemma DigitsAreRead(n: nat, rest: string)
    requires rest == [] || !IsDigit(rest[0])
    ensures var s := Print(n) + rest;
            DigitsAt(s) == |Print(n)| && s[..|Print(n)|] == Print(n) && s[|Print(n)|..] == rest
  {
    var s := Print(n) + rest;
    forall i | 0 <= i < |Print(n)|
      ensures IsDigit(s[i])
    {
      assert s[i] == Print(n)[i] && Print(n)[i] in Print(n);
    }
    DigitsAtIs(s, |Print(n)|);
  }

  // ---------------------------------------------------------------- the two regular expressions

  /** One optional part of a pattern: what it captured, and the text behind it.
      Everything after the unit is optional as well, so the match never has to be taken back. */
  datatype Match = Match(value: Option<nat>, rest: string)

  function Skip(s: string, word: string): string {
    if word <= s then s[|word|..] else s
  }

  /** `((?P<key>\d+) ?u(nit)?(s)? ?)?`. */
  function SimpleField(s: string, unit: char, more: string): Match {
    var n := DigitsAt(s);
    assert forall c <- s[..n] :: IsDigit(c);
    var behind := Skip(s[n..], " ");
    if n > 0 && [unit] <= behind
    then Match(Some(Number(s[..n])), Skip(Skip(Skip(behind[1..], more), "s"), " "))
    else Match(None, s)
  }

  /** `((?P<key>\d+)U)?`. */
  function IsoField(s: string, unit: char): Match {
    var n := DigitsAt(s);
    assert forall c <- s[..n] :: IsDigit(c);
    if n > 0 && [unit] <= s[n..] then Match(Some(Number(s[..n])), s[n+1..]) else Match(None, s)
  }

  function Zero(o: Option<nat>): nat {
    GetOr(o, 0)
  }

  function ParseSimple(s: string): Option<Parsed> {
    var w := SimpleField(s, 'w', "eek");
    var d := SimpleField(w.rest, 'd', "ay");
    var h := SimpleField(d.rest, 'h', "our");
    var m := SimpleField(h.rest, 'm', "inute");
    var t := SimpleField(m.rest, 's', "econd");
    if w.value.Some? || d.value.Some? || h.value.Some? || m.value.Some? || t.value.Some?
    then Some(Make(Fields(Zero(w.value), Zero(d.value), Zero(h.value), Zero(m.value), Zero(t.value))))
    else None
  }

  /** A match that captures no text counts as none. */
  function ParseIso(s: string): Option<Parsed> {
    if !("P" <= s) then None else
    var w := IsoField(s[1..], 'W');
    if w.value.Some? then Some(Make(Fields(w.value.value, 0, 0, 0, 0))) else
    var d := IsoField(s[1..], 'D');
    if "T" <= d.rest then
      var h := IsoField(d.rest[1..], 'H');
      var m := IsoField(h.rest, 'M');
      var t := IsoField(m.rest, 'S');
      Some(Make(Fields(0, Zero(d.value), Zero(h.value), Zero(m.value), Zero(t.value))))
    else if d.value.Some? then Some(Make(Fields(0, d.value.value, 0, 0, 0)))
    else None
  }

  /** What `float` followed by `timedelta` makes of a text, if it accepts it; no number contains the letter w. */
  type FloatParser = f: string -> Option<Delta> | forall s :: 'w' in s ==> f(s) == None witness (s) => None

  /** `parse`; an empty duration from the ISO branch counts as a failure of that branch. */
  function Parse(float: FloatParser, s: string): Parsed {
    if float(s).Some? then Value(float(s).value) else
    match ParseIso(s)
    case Some(Overflow) => Overflow
    case Some(Value(delta)) => if delta == Delta(0, 0, 0) then GetOr(ParseSimple(s), Invalid) else Value(delta)
    case _ => GetOr(ParseSimple(s), Invalid)
  }

  function Serialize(x: Delta): string {
    PrintInt(x.days / 7) + " w " + PrintInt(x.days % 7) + " d " + PrintInt(x.seconds / 3600) + " h " +
    PrintInt(x.seconds % 3600 / 60) + " m " + PrintInt(x.seconds % 3600 % 60) + " s"
  }

  // ---------------------------------------------------------------- the round trip

  /** A printed field is read back, and the reading stops just behind it. */
  lemma SimpleFieldReads(n: nat, unit: char, more: string, rest: string)
    requires more != [] && more[0] != ' ' && !IsDigit(unit)
    ensures SimpleField(Print(n) + (" " + [unit] + " " + rest), unit, more) == Match(Some(n), rest)
  {
    var tail := " " + [unit] + " " + rest;
    NumberOfPrint(n);
    DigitsAreRead(n, tail);
    assert Skip(tail, " ") == [unit] + " " + rest;
    var behind := " " + rest;
    assert ([unit] + " " + rest)[1..] == behind && behind[0] == ' ';
    assert Skip(behind, more) == behind && Skip(behind, "s") == behind && Skip(behind, " ") == rest;
    hide Skip, Print, Number, DigitsAt;
  }

  lemma LastFieldReads(n: nat, unit: char, more: string)
    requires more != [] && !IsDigit(unit)
    ensures SimpleField(Print(n) + (" " + [unit]), unit, more) == Match(Some(n), "")
  {
    var tail := " " + [unit];
    NumberOfPrint(n);
    DigitsAreRead(n, tail);
    assert Skip(tail, " ") == [unit];
    assert [unit][1..] == "";
    hide Print, Number, DigitsAt;
  }

  /** The printed fields, from the last to the first. */
  function Printed(f: Fields): string {
    Print(f.weeks) + (" w " + (Print(f.days) + (" d " + (Print(f.hours) + (" h " + (Print(f.minutes) + (" m " +
    (Print(f.seconds) + " s"))))))))
  }

  lemma ReadsPrinted(f: Fields)
    ensures ParseSimple(Printed(f)) == Some(Make(f))
  {
    var t := Print(f.seconds) + " s";
    var m := Print(f.minutes) + (" m " + t);
    var h := Print(f.hours) + (" h " + m);
    var d := Print(f.days) + (" d " + h);
    assert " " + ['s'] == " s" && " " + ['m'] + " " + t == " m " + t && " " + ['h'] + " " + m == " h " + m;
    assert " " + ['d'] + " " + h == " d " + h && " " + ['w'] + " " + d == " w " + d;
    SimpleFieldReads(f.weeks, 'w', "eek", d);
    SimpleFieldReads(f.days, 'd', "ay", h);
    SimpleFieldReads(f.hours, 'h', "our", m);
    SimpleFieldReads(f.minutes, 'm', "inute", t);
    LastFieldReads(f.seconds, 's', "econd");
    hide SimpleField, Print, Make;
  }

  function FieldsOf(x: Delta): Fields
    requires x.days >= 0
  {
    Fields(x.days / 7, x.days % 7, x.seconds / 3600, x.seconds % 3600 / 60, x.seconds % 3600 % 60)
  }

  lemma SerializeIsPrinted(x: Delta)
    requires x.days >= 0
    ensures Serialize(x) == Printed(FieldsOf(x))
  {
    hide Print;
  }

  lemma FieldsAddUp(x: Delta)
    requires x.days >= 0 && x.Normal()
    ensures Make(FieldsOf(x)) == Value(x.(micros := 0))
  {
  }

  /** All the seconds of a duration, and of the fields of a text: a week has 604800 seconds, a day 86400. */
  function TotalSeconds(x: Delta): int {
    x.days * 86400 + x.seconds
  }

  function SecondsOf(f: Fields): nat {
    604800 * f.weeks + 86400 * f.days + 3600 * f.hours + 60 * f.minutes + f.seconds
  }

  /** The fields of a text mean as many seconds as the duration has that they are read as; only the number of days can
      be too large. */
  lemma FieldsMean(f: Fields)
    ensures match Make(f)
            case Value(x) => TotalSeconds(x) == SecondsOf(f) && x.micros == 0 && x.Normal()
            case Overflow => SecondsOf(f) >= 86400 * 1000000000
            case Invalid => false
  {
    var seconds := (f.hours * 60 + f.minutes) * 60 + f.seconds;
    assert seconds == SECONDS_PER_DAY * (seconds / SECONDS_PER_DAY) + seconds % SECONDS_PER_DAY;
  }

  /** The printed fields mean the duration, and none of them but the weeks makes up a whole one of the next field. */
  lemma PrintedMeans(x: Delta)
    requires x.days >= 0 && x.Normal()
    ensures var f := FieldsOf(x);
            && Serialize(x) == Printed(f) && SecondsOf(f) == TotalSeconds(x)
            && f.days < 7 && f.hours < 24 && f.minutes < 60 && f.seconds < 60
  {
    SerializeIsPrinted(x);
    hide Serialize, Printed;
  }

  /** A negative duration is printed with a sign, which no branch of the parser accepts. */
  lemma NegativeIsRejected(float: FloatParser, x: Delta)
    requires x.days < 0
    ensures Parse(float, Serialize(x)) == Invalid
  {
    var s := Serialize(x);
    HasW(x);
    assert s[0] == '-';
    hide Serialize, Print;
  }

  lemma HasW(x: Delta)
    ensures 'w' in Serialize(x)
  {
    hide PrintInt;
    var s := Serialize(x);
    var n := |PrintInt(x.days / 7)| + 1;
    assert s[n] == 'w';
  }

  /** What comes back from the text of a duration. */
  lemma ParseOfSerialize(float: FloatParser, x: Delta)
    requires x.Normal()
    ensures Parse(float, Serialize(x)) == if x.days >= 0 then Value(x.(micros := 0)) else Invalid
  {
    if x.days < 0 {
      NegativeIsRejected(float, x);
    } else {
      var f := FieldsOf(x);
      SerializeIsPrinted(x);
      HasW(x);
      assert Printed(f)[0] == Print(f.weeks)[0] && Print(f.weeks)[0] in Print(f.weeks);
      ReadsPrinted(f);
      FieldsAddUp(x);
      hide Serialize, Print, Printed, Make, ParseSimple, FieldsOf;
    }
  }

  /** The round trip holds exactly for durations that are not negative and have no fraction of a second. */
  lemma RoundTrip(float: FloatParser, x: Delta)
    requires x.Normal()
    ensures Parse(float, Serialize(x)) == Value(x) <==> x.days >= 0 && x.micros == 0
  {
    ParseOfSerialize(float, x);
    hide Parse, Serialize;
  }

  // ---------------------------------------------------------------- ISO 8601 durations

  lemma IsoFieldReads(n: nat, unit: char, rest: string)
    requires !IsDigit(unit)
    ensures IsoField(Print(n) + ([unit] + rest), unit) == Match(Some(n), rest)
    ensures forall other: char :: other != unit ==> IsoField(Print(n) + ([unit] + rest), other).value == None
  {
    NumberOfPrint(n);
    DigitsAreRead(n, [unit] + rest);
    var s := Print(n) + ([unit] + rest);
    assert s[|Print(n)|+1..] == s[|Print(n)|..][1..] == rest;
    hide Print, Number, DigitsAt;
  }

  lemma IsoReadsText(d: nat, h: nat, m: nat, t: nat)
    ensures ParseIso(IsoText(d, h, m, t)) == Some(Make(Fields(0, d, h, m, t)))
  {
    hide Print, IsoField, Make;
    var s := Print(t) + (['S'] + "");
    var ms := Print(m) + (['M'] + s);
    var hms := Print(h) + (['H'] + ms);
    var rest := Print(d) + (['D'] + ("T" + hms));
    IsoFieldReads(d, 'D', "T" + hms);
    IsoFieldReads(h, 'H', ms);
    IsoFieldReads(m, 'M', s);
    IsoFieldReads(t, 'S', "");
    var text := IsoText(d, h, m, t);
    assert text == "P" + rest;
    hide IsoText;
    assert "P" <= text && text[1..] == rest;
    assert IsoField(text[1..], 'W').value == None && IsoField(text[1..], 'D') == Match(Some(d), "T" + hms);
    assert "T" <= "T" + hms && ("T" + hms)[1..] == hms;
  }

  lemma SimpleRejects(s: string)
    requires s == [] || !IsDigit(s[0])
    ensures ParseSimple(s) == None
  {
  }

  /** The ISO text with all four fields is read as its fields, unless they are all zero:
      then the branch counts as failed, and the text is rejected. */
  lemma IsoIsRead(float: FloatParser, d: nat, h: nat, m: nat, t: nat)
    requires float(IsoText(d, h, m, t)) == None
    ensures Parse(float, IsoText(d, h, m, t)) ==
      if Make(Fields(0, d, h, m, t)) == Value(Delta(0, 0, 0)) then Invalid else Make(Fields(0, d, h, m, t))
  {
    IsoReadsText(d, h, m, t);
    assert IsoText(d, h, m, t)[0] == 'P';
    SimpleRejects(IsoText(d, h, m, t));
    hide IsoText, ParseIso, ParseSimple, Make;
  }

  function IsoText(d: nat, h: nat, m: nat, t: nat): string {
    "P" + (Print(d) + (['D'] + ("T" + (Print(h) + (['H'] + (Print(m) + (['M'] + (Print(t) + (['S'] + "")))))))))
  }
}

/** The vital-signs page: time-of-day arithmetic on "HH:MM" strings modulo
    one day (1440 minutes), and the page's list edits. */
module SinaisVitais {
  import opened Js
  import opened JsObject
  import opened FichaSchema
  import FichaContext
  import FichaStorage

  const DAY: int := 1440

  /** JavaScript's `a % n`, which truncates toward zero: the remainder takes
      the sign of `a`. */
  function JsRem(a: int, n: int): (r: int)
    requires n > 0
    ensures a >= 0 ==> 0 <= r < n
    ensures a < 0 ==> -n < r <= 0
  {
    if a >= 0 then a % n else -((-a) % n)
  }

  /** The truncating remainder differs from its operand by whole days. */
  lemma JsRemCongruent(a: int)
    ensures (a - JsRem(a, DAY)) % DAY == 0
  {
    if a < 0 {
      var q := (-a) / DAY;
      assert -a == q * DAY + (-a) % DAY;
      assert a - JsRem(a, DAY) == (-q) * DAY;
    } else {
      var q := a / DAY;
      assert a == q * DAY + a % DAY;
    }
  }

  /** `((x % 1440) + 1440) % 1440` with JavaScript's `%` is the
      mathematical remainder of `x` modulo one day. */
  lemma {:induction false} DayRemIsMod(x: int)
    ensures JsRem(JsRem(x, DAY) + DAY, DAY) == x % DAY
  {
    var r := JsRem(x, DAY);
    var t := JsRem(r + DAY, DAY);
    JsRemCongruent(x);
    JsRemCongruent(r + DAY);
    assert (x - t) % DAY == 0 by {
      var q1 := (x - r) / DAY;
      var q2 := (r + DAY - t) / DAY;
      assert x - r == q1 * DAY;
      assert r + DAY - t == q2 * DAY;
      assert x - t == (q1 + q2 - 1) * DAY;
    }
    ModEqual(x, t);
  }

  /** Adding whole days leaves the remainder alone. */
  lemma ModShift(x: int, q: int)
    ensures (x + q * DAY) % DAY == x % DAY
  {
    var r := x % DAY;
    assert x == (x / DAY) * DAY + r;
    assert x + q * DAY == (x / DAY + q) * DAY + r;
  }

  lemma ModEqual(x: int, t: int)
    requires 0 <= t < DAY
    requires (x - t) % DAY == 0
    ensures x % DAY == t
  {
    var q := (x - t) / DAY;
    assert x == q * DAY + t;
  }

  /** `/^\d{2}:\d{2}$/.test(s)`. */
  predicate IsHM(s: string) {
    |s| == 5 && IsDigit(s[0]) && IsDigit(s[1]) && s[2] == ':' && IsDigit(s[3]) && IsDigit(s[4])
  }

  function Hours(s: string): (h: nat)
    requires IsHM(s)
    ensures h < 100
  {
    10 * DigitValue(s[0]) + DigitValue(s[1])
  }

  function Minutes(s: string): (m: nat)
    requires IsHM(s)
    ensures m < 100
  {
    10 * DigitValue(s[3]) + DigitValue(s[4])
  }

  /** `parseHM(s)`: minutes since midnight, wrapped into one day; 0 for
      anything not of the form two digits, colon, two digits. */
  function ParseHM(s: string): (r: int)
    ensures 0 <= r < DAY
    ensures !IsHM(s) ==> r == 0
    ensures IsHM(s) ==> r == (60 * Hours(s) + Minutes(s)) % DAY
  {
    if !IsHM(s) then 0
    else
      var x := 60 * Hours(s) + Minutes(s);
      DayRemIsMod(x);
      JsRem(JsRem(x, DAY) + DAY, DAY)
  }

  /** `s.padStart(2, "0")`. */
  function PadStart2(s: string): (r: string)
    ensures |s| >= 2 ==> r == s
    ensures |s| < 2 ==> |r| == 2 && r[2 - |s|..] == s
  {
    if |s| >= 2 then s
    else if |s| == 1 then "0" + s
    else "00"
  }

  /** `String(n).padStart(2, "0")` for `n < 100`: two digits whose value is
      `n`. */
  function TwoDigits(n: nat): (r: string)
    requires n < 100
    ensures |r| == 2 && IsDigit(r[0]) && IsDigit(r[1])
    ensures 10 * DigitValue(r[0]) + DigitValue(r[1]) == n
  {
    var d := NatToDecimal(n);
    if n < 10 then
      assert d == [DigitChar(n)];
      PadStart2(d)
    else
      assert NatToDecimal(n / 10) == [DigitChar(n / 10)];
      assert d == [DigitChar(n / 10), DigitChar(n % 10)];
      PadStart2(d)
  }

  /** Two digits are what `TwoDigits` writes for their value. */
  lemma TwoDigitsOf(a: char, b: char)
    requires IsDigit(a) && IsDigit(b)
    ensures TwoDigits(10 * DigitValue(a) + DigitValue(b)) == [a, b]
  {
    var r := TwoDigits(10 * DigitValue(a) + DigitValue(b));
    assert DigitValue(r[0]) == DigitValue(a) && DigitValue(r[1]) == DigitValue(b);
  }

  /** `fmtHM(mins)`: the time of day `mins` minutes after midnight, for any
      integer, negative ones included. The double remainder in `fmtHM` is
      written as Dafny's `%`, which `DayRemIsMod` shows it equals. */
  function FmtHM(mins: int): (r: string)
    ensures IsHM(r) && Hours(r) < 24 && Minutes(r) < 60
    ensures 60 * Hours(r) + Minutes(r) == mins % DAY
  {
    var mm := mins % DAY;
    TwoDigits(mm / 60) + ":" + TwoDigits(mm % 60)
  }

  /** Two minute counts a whole number of days apart print alike. */
  lemma FmtHMPeriodic(a: int, b: int)
    requires a % DAY == b % DAY
    ensures FmtHM(a) == FmtHM(b)
  {
    DayRemIsMod(a);
    DayRemIsMod(b);
  }

  /** A valid time of day survives parsing and printing. */
  lemma FormatParsed(s: string)
    requires IsHM(s) && Hours(s) < 24 && Minutes(s) < 60
    ensures FmtHM(ParseHM(s)) == s
  {
    assert s == [s[0], s[1], ':', s[3], s[4]];
    FmtDigits(s[0], s[1], s[3], s[4]);
  }

  /** The minute count of the digits "ab:cd" prints as "ab:cd". */
  lemma FmtDigits(a: char, b: char, c: char, d: char)
    requires IsDigit(a) && IsDigit(b) && IsDigit(c) && IsDigit(d)
    requires 10 * DigitValue(a) + DigitValue(b) < 24 && 10 * DigitValue(c) + DigitValue(d) < 60
    ensures FmtHM(60 * (10 * DigitValue(a) + DigitValue(b)) + (10 * DigitValue(c) + DigitValue(d))) == [a, b, ':', c, d]
  {
    FmtHMOf(10 * DigitValue(a) + DigitValue(b), 10 * DigitValue(c) + DigitValue(d));
    TwoDigitsOf(a, b);
    TwoDigitsOf(c, d);
  }

  /** Hours and minutes within a day print as their two-digit forms. */
  lemma FmtHMOf(h: nat, m: nat)
    requires h < 24 && m < 60
    ensures FmtHM(60 * h + m) == TwoDigits(h) + ":" + TwoDigits(m)
  {
    var mm := 60 * h + m;
    assert mm % DAY == mm;
    assert mm / 60 == h && mm % 60 == m;
  }

  /** Printing and parsing gives back the minute count modulo one day. */
  lemma ParseFormatted(n: int)
    ensures ParseHM(FmtHM(n)) == n % DAY
  {
    var r := FmtHM(n);
    ModEqual(60 * Hours(r) + Minutes(r), n % DAY);
  }

  /** `hhmm || "06:00"`. */
  function OrSix(hhmm: string): string {
    if hhmm == "" then "06:00" else hhmm
  }

  /** `nextSlot(hhmm, k)`: `k` minutes after `hhmm`, an empty `hhmm` read as
      06:00. */
  function NextSlot(hhmm: string, stepMin: int): (r: string)
    ensures IsHM(r) && Hours(r) < 24 && Minutes(r) < 60
    ensures ParseHM(r) == (ParseHM(OrSix(hhmm)) + stepMin) % DAY
  {
    ParseFormatted(ParseHM(OrSix(hhmm)) + stepMin);
    FmtHM(ParseHM(OrSix(hhmm)) + stepMin)
  }

  /** Stepping forward and back returns to the normalised start. */
  lemma NextSlotBack(hhmm: string, k: int)
    ensures NextSlot(NextSlot(hhmm, k), -k) == FmtHM(ParseHM(OrSix(hhmm)))
  {
    StepBack(NextSlot(hhmm, k), ParseHM(OrSix(hhmm)), k);
  }

  /** A time `k` minutes past `p` steps back `k` minutes to `p`. */
  lemma StepBack(q: string, p: int, k: int)
    requires IsHM(q) && ParseHM(q) == (p + k) % DAY
    ensures NextSlot(q, -k) == FmtHM(p)
  {
    assert OrSix(q) == q;
    BackAndForth(p, k);
    FmtHMPeriodic(ParseHM(q) + -k, p);
  }

  /** `k` minutes on, reduced to a day, then `k` minutes back, is the start
      modulo one day. */
  lemma BackAndForth(p: int, k: int)
    ensures ((p + k) % DAY + -k) % DAY == p % DAY
  {
    var d := (p + k) / DAY;
    assert (p + k) % DAY + -k == p + (-d) * DAY;
    ModShift(p, -d);
  }

  /** The time the bump buttons start from: the form's time, else the
      surgery's start time, else 06:00. */
  function BumpStart(hora: string, inicio: string): string {
    if hora != "" then hora else if inicio != "" then inicio else "06:00"
  }

  /** `bumpTime(dir)`'s new form time. */
  function BumpedTime(hora: string, inicio: string, dir: int, step: int): (r: string)
    ensures IsHM(r) && ParseHM(r) == (ParseHM(BumpStart(hora, inicio)) + dir * step) % DAY
  {
    NextSlot(BumpStart(hora, inicio), dir * step)
  }

  /** Bumping up and then down returns to the normalised start time. */
  lemma BumpUpThenDown(hora: string, inicio: string, step: int)
    ensures BumpedTime(BumpedTime(hora, inicio, 1, step), inicio, -1, step)
            == FmtHM(ParseHM(BumpStart(hora, inicio)))
  {
    NextSlotBack(BumpStart(hora, inicio), step);
  }

  /** The entry form: every field as the text the inputs hold. */
  datatype VitalForm = VitalForm(hora: string, pas: string, pad: string, fc: string,
                                 spo2: string, temp: string, etco2: string, ritmo: string)

  /** `mapNum(form)`: the readings converted by `toNum`, the time and the
      rhythm kept as text. */
  function MapNum(f: VitalForm, toNum: string -> Option<real>): (v: Vital)
    ensures v.hora == f.hora && v.ritmo == f.ritmo
    ensures v.pas == toNum(f.pas) && v.pad == toNum(f.pad) && v.fc == toNum(f.fc)
    ensures v.spo2 == toNum(f.spo2) && v.temp == toNum(f.temp) && v.etco2 == toNum(f.etco2)
  {
    Vital(f.hora, toNum(f.pas), toNum(f.pad), toNum(f.fc), toNum(f.spo2), toNum(f.temp),
          toNum(f.etco2), f.ritmo)
  }

  /** The page's state: the form, the local list of rows and the step in
      minutes, over the store. */
  class VitalsPage {
    const store: FichaStorage.Store
    var form: VitalForm
    var registros: seq<Vital>
    var step: int

    /** The page mounts with the stored rows, an empty time, the default
        readings and a 10-minute step. */
    constructor (st: FichaStorage.Store)
      ensures store == st && step == 10
      ensures registros == st.Value().vitais.registros
      ensures form == VitalForm("", "120", "80", "72", "98", "36.5", "35", "")
    {
      store := st;
      step := 10;
      registros := st.Value().vitais.registros;
      form := VitalForm("", "120", "80", "72", "98", "36.5", "35", "");
    }

    /** `bumpTime(dir)`: the form time moves by `dir * step` minutes. */
    method BumpTime(dir: int)
      modifies this
      ensures form == old(form).(hora := BumpedTime(old(form.hora),
                        Lookup(store.Value().cirurgia, "inicio").GetOr(""), dir, step))
      ensures registros == old(registros) && step == old(step)
    {
      var inicio := Lookup(store.Value().cirurgia, "inicio").GetOr("");
      var cur := if form.hora != "" then form.hora else if inicio != "" then inicio else "06:00";
      form := form.(hora := NextSlot(cur, dir * step));
    }

    /** `add()`: nothing without a time; otherwise the converted row is
        appended locally and in the store, and the form time advances by
        one step. */
    method Add(toNum: string -> Option<real>)
      modifies this, store, store.initVitais
      ensures old(form.hora) == "" ==>
                registros == old(registros) && form == old(form) && store.Value() == old(store.Value())
      ensures old(form.hora) != "" ==>
                FichaContext.Appended(registros, old(registros), MapNum(old(form), toNum))
                && store.Value() == FichaContext.AddVital(old(store.Value()), MapNum(old(form), toNum))
                && form == old(form).(hora := NextSlot(old(form.hora), step))
      ensures step == old(step)
    {
      if form.hora == "" {
        return;
      }
      var row := MapNum(form, toNum);
      var next := NextSlot(form.hora, step);
      registros := registros + [row];
      form := form.(hora := next);
      store.AddVital(row);
    }

    /** `del(i)`: the row at `i` leaves the local list; the store has no
        `removeVital`, so the call after it throws and the stored rows stay
        as they were. `failed` reports that error. */
    method Del(i: int) returns (failed: bool)
      modifies this
      ensures registros == ExceptIndex(old(registros), i)
      ensures 0 <= i < |old(registros)| ==> FichaContext.RemovedAt(registros, old(registros), i)
      ensures store.Value() == old(store.Value())
      ensures form == old(form) && step == old(step)
      ensures failed
    {
      registros := ExceptIndex(registros, i);
      failed := true;
    }
  }

  /** A row deleted on the page comes back when the page mounts again,
      because the store still holds it. */
  method DeletedRowReturns(v: Vital) returns (before: seq<Vital>, after: seq<Vital>)
    ensures before == []
    ensures after == [v]
  {
    var st := new FichaStorage.Store(Absent);
    st.AddVital(v);
    var page := new VitalsPage(st);
    var _ := page.Del(0);
    before := page.registros;
    var again := new VitalsPage(st);
    after := again.registros;
  }
}

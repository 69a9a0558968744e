/** The medications and equipment page: the Brazilian decimal input mask
    for doses, and the page's list and equipment edits. */
module MedicacoesEquipamentos {
  import opened Js
  import opened JsObject
  import opened FichaSchema
  import FichaContext
  import FichaStorage

  /** A character the mask keeps: `[\d,.]`. */
  predicate NumericOrSeparator(c: char) {
    IsDigit(c) || c == ',' || c == '.'
  }

  /** A digit or a comma: what is left once dots became commas. */
  predicate DigitOrComma(c: char) {
    IsDigit(c) || c == ','
  }

  predicate AllDigitOrComma(s: string) {
    forall i :: 0 <= i < |s| ==> DigitOrComma(s[i])
  }

  /** `x.replace(/[^\d,\.]/g, "")`. */
  function KeepNumeric(s: string): (r: string)
    ensures forall i :: 0 <= i < |r| ==> NumericOrSeparator(r[i])
    ensures (forall i :: 0 <= i < |s| ==> NumericOrSeparator(s[i])) ==> r == s
    ensures |s| == 1 ==> r == if NumericOrSeparator(s[0]) then s else []
  {
    if s == [] then []
    else (if NumericOrSeparator(s[0]) then [s[0]] else []) + KeepNumeric(s[1..])
  }

  /** The filter works piece by piece: with the one-character case above,
      the result is exactly the input's digits, commas and dots, in order. */
  lemma {:induction false} KeepNumericConcat(a: string, b: string)
    ensures KeepNumeric(a + b) == KeepNumeric(a) + KeepNumeric(b)
  {
    if a == [] {
      assert a + b == b;
    } else {
      assert (a + b)[0] == a[0];
      assert (a + b)[1..] == a[1..] + b;
      KeepNumericConcat(a[1..], b);
    }
  }

  /** `x.replace(/\./g, ",")`. */
  function DotsToCommas(s: string): (r: string)
    ensures |r| == |s|
    ensures forall i :: 0 <= i < |s| ==> r[i] == if s[i] == '.' then ',' else s[i]
  {
    if s == [] then [] else [if s[0] == '.' then ',' else s[0]] + DotsToCommas(s[1..])
  }

  /** `x.split(",")[0]`: the text before the first comma. */
  function BeforeComma(s: string): (r: string)
    ensures ',' !in r && |r| <= |s| && r == s[..|r|]
  {
    if s == [] then []
    else if s[0] == ',' then []
    else [s[0]] + BeforeComma(s[1..])
  }

  /** The text after the first comma, empty when there is none.
      `maskDecimalBR` takes `parts.slice(1).join("")` and then strips the
      remaining commas; keeping the commas here and stripping them with
      `RemoveCommas` yields the same decimal digits. */
  function AfterComma(s: string): (r: string)
    ensures |r| <= |s| && r == s[|s| - |r|..]
  {
    if s == [] then []
    else if s[0] == ',' then s[1..]
    else AfterComma(s[1..])
  }

  /** The text splits around its first comma. */
  lemma {:induction false} SplitAtComma(s: string)
    requires ',' in s
    ensures s == BeforeComma(s) + "," + AfterComma(s)
  {
    if s[0] == ',' {
      assert s == [','] + s[1..];
    } else {
      var t := s[1..];
      CommaInTail(s);
      SplitAtComma(t);
      assert BeforeComma(s) == [s[0]] + BeforeComma(t) && AfterComma(s) == AfterComma(t);
      ConsSplit(s, BeforeComma(t), AfterComma(t));
    }
  }

  lemma ConsSplit(s: string, b: string, a: string)
    requires s != [] && s[1..] == b + "," + a
    ensures s == ([s[0]] + b) + "," + a
  {
    assert s == [s[0]] + s[1..];
  }

  /** A comma that is not the first character is in the rest. */
  lemma CommaInTail(s: string)
    requires ',' in s && s[0] != ','
    ensures ',' in s[1..]
  {
    var i :| 0 <= i < |s| && s[i] == ',';
    assert s[1..][i - 1] == ',';
  }

  /** Without a comma everything is before it. */
  lemma {:induction false} NoCommaSplit(s: string)
    requires ',' !in s
    ensures BeforeComma(s) == s && AfterComma(s) == ""
  {
    if s != [] {
      assert ',' !in s[1..] by {
        forall i | 0 <= i < |s[1..]| ensures s[1..][i] != ',' {
          assert s[1..][i] == s[i + 1];
        }
      }
      NoCommaSplit(s[1..]);
    }
  }

  lemma {:induction false} JoinAtComma(a: string, b: string)
    requires ',' !in a
    ensures BeforeComma(a + "," + b) == a && AfterComma(a + "," + b) == b
  {
    if a != [] {
      assert (a + "," + b)[1..] == a[1..] + "," + b;
      JoinAtComma(a[1..], b);
    } else {
      assert a + "," + b == [','] + b;
    }
  }

  lemma DigitsHaveNoComma(a: string)
    requires AllDigits(a)
    ensures ',' !in a && BeforeComma(a) == a && AfterComma(a) == ""
  {
    assert ',' !in a by {
      forall i | 0 <= i < |a| ensures a[i] != ',' {
        assert IsDigit(a[i]);
      }
    }
    NoCommaSplit(a);
  }

  /** `s.replace(/,/g, "")`. */
  function RemoveCommas(s: string): (r: string)
    ensures ',' !in r
    ensures ',' !in s ==> r == s
  {
    if s == [] then []
    else (if s[0] == ',' then [] else [s[0]]) + RemoveCommas(s[1..])
  }

  lemma {:induction false} RemoveCommasDigits(s: string)
    requires AllDigitOrComma(s)
    ensures AllDigits(RemoveCommas(s))
  {
    if s != [] {
      RemoveCommasDigits(s[1..]);
    }
  }

  /** `s.replace(/^0+(?=\d)/, "")`: the leading zeros that a digit follows. */
  function StripLeadingZeros(s: string): (r: string)
    ensures |r| <= |s| && r == s[|s| - |r|..]
    ensures s != [] ==> r != []
    ensures |r| >= 2 && IsDigit(r[1]) ==> r[0] != '0'
  {
    if |s| >= 2 && s[0] == '0' && IsDigit(s[1]) then StripLeadingZeros(s[1..]) else s
  }

  /** Digits with no leading zero, save the single digit "0". */
  predicate NoLeadingZero(s: string) {
    |s| >= 2 ==> s[0] != '0'
  }

  /** `s.slice(0, n)`. */
  function Take(s: string, n: nat): (r: string)
    ensures |r| <= n && |r| <= |s| && r == s[..|r|]
    ensures |s| <= n ==> r == s
  {
    if |s| <= n then s else s[..n]
  }

  /** `int || "0"`. */
  function OrZero(s: string): string {
    if s == "" then "0" else s
  }

  predicate EndsWithComma(s: string) {
    |s| > 0 && s[|s| - 1] == ','
  }

  lemma {:induction false} BeforeCommaDigits(x: string)
    requires AllDigitOrComma(x)
    ensures AllDigits(BeforeComma(x))
  {
    if x != [] && x[0] != ',' {
      BeforeCommaDigits(x[1..]);
    }
  }

  lemma {:induction false} AfterCommaDigitOrComma(x: string)
    requires AllDigitOrComma(x)
    ensures AllDigitOrComma(AfterComma(x))
  {
    if x != [] && x[0] != ',' {
      AfterCommaDigitOrComma(x[1..]);
    }
  }

  lemma {:induction false} StripKeepsDigits(s: string)
    requires AllDigits(s)
    ensures AllDigits(StripLeadingZeros(s))
  {
    if |s| >= 2 && s[0] == '0' && IsDigit(s[1]) {
      StripKeepsDigits(s[1..]);
    }
  }

  lemma TakeKeepsDigits(s: string, n: nat)
    requires AllDigits(s)
    ensures AllDigits(Take(s, n))
  {
  }

  /** The text after the first two steps: numeric characters only, every
      dot turned into a comma. */
  function Normalized(raw: JsValue): (x: string)
    ensures AllDigitOrComma(x)
  {
    DotsToCommas(KeepNumeric(ToJsString(raw)))
  }

  /** Leading zeros dropped, then cut to `maxInt` characters. */
  function IntDigits(b: string, maxInt: nat): (ip: string)
    requires AllDigits(b)
    ensures AllDigits(ip) && NoLeadingZero(ip) && |ip| <= maxInt
  {
    StripKeepsDigits(b);
    var z := StripLeadingZeros(b);
    TakeKeepsDigits(z, maxInt);
    Take(z, maxInt)
  }

  /** The integer part: the digits before the first separator, leading zeros
      dropped, cut to `maxInt` characters. */
  function IntPart(x: string, maxInt: nat): (ip: string)
    requires AllDigitOrComma(x)
    ensures AllDigits(ip) && NoLeadingZero(ip) && |ip| <= maxInt
  {
    BeforeCommaDigits(x);
    IntDigits(BeforeComma(x), maxInt)
  }

  /** The decimal part: every digit after the first separator, cut to
      `maxDec` characters. */
  function DecPart(x: string, maxDec: nat): (dec: string)
    requires AllDigitOrComma(x)
    ensures AllDigits(dec) && |dec| <= maxDec
  {
    AfterCommaDigitOrComma(x);
    RemoveCommasDigits(AfterComma(x));
    TakeKeepsDigits(RemoveCommas(AfterComma(x)), maxDec);
    Take(RemoveCommas(AfterComma(x)), maxDec)
  }

  /** `maskDecimalBR(raw, maxInt, maxDec)`. */
  function MaskDecimalBR(raw: JsValue, maxInt: nat, maxDec: nat): (r: string)
    ensures IsNullish(raw) ==> r == ""
    ensures maxDec == 0 ==> AllDigits(r)
  {
    if IsNullish(raw) then ""
    else
      var x := Normalized(raw);
      var ip := IntPart(x, maxInt);
      if maxDec == 0 then ip
      else
        var dec := DecPart(x, maxDec);
        if EndsWithComma(x) && dec == "" then OrZero(ip) + ","
        else if dec != "" then OrZero(ip) + "," + dec
        else ip
  }

  /** The two shapes the mask yields: the integer part alone, or an integer
      part and the decimal part (possibly empty) around one comma. */
  lemma MaskCases(raw: JsValue, maxInt: nat, maxDec: nat)
    requires !IsNullish(raw)
    ensures var x := Normalized(raw);
            var ip := IntPart(x, maxInt);
            var r := MaskDecimalBR(raw, maxInt, maxDec);
            (maxDec == 0 ==> r == ip)
            && (maxDec > 0 ==>
                  var dec := DecPart(x, maxDec);
                  r == (if dec != "" || EndsWithComma(x) then OrZero(ip) + "," + dec else ip))
  {
  }

  /** Digits and at most one comma. */
  predicate OneSeparator(r: string) {
    AllDigitOrComma(r) && forall i, j :: 0 <= i < j < |r| && r[i] == ',' ==> r[j] != ','
  }

  lemma DigitsShape(a: string)
    requires AllDigits(a)
    ensures OneSeparator(a) && BeforeComma(a) == a && AfterComma(a) == ""
  {
    DigitsHaveNoComma(a);
  }

  lemma PairShape(a: string, b: string)
    requires AllDigits(a) && AllDigits(b)
    ensures var r := a + "," + b;
            OneSeparator(r) && BeforeComma(r) == a && AfterComma(r) == b
  {
    var r := a + "," + b;
    DigitsHaveNoComma(a);
    JoinAtComma(a, b);
    forall i, j | 0 <= i < j < |r| && r[i] == ',' ensures r[j] != ',' {
      assert i == |a|;
      assert r[j] == b[j - |a| - 1];
    }
  }

  /** The output holds digits and at most one comma; its integer part has no
      leading zero and at most `maxInt` characters (or is the "0" written in
      front of a separator); its decimal part has at most `maxDec` digits. */
  lemma MaskShape(raw: JsValue, maxInt: nat, maxDec: nat)
    ensures var r := MaskDecimalBR(raw, maxInt, maxDec);
            OneSeparator(r)
            && AllDigits(BeforeComma(r)) && AllDigits(AfterComma(r))
            && NoLeadingZero(BeforeComma(r))
            && (|BeforeComma(r)| <= maxInt || BeforeComma(r) == "0")
            && |AfterComma(r)| <= maxDec
  {
    if IsNullish(raw) {
      DigitsShape("");
      return;
    }
    MaskCases(raw, maxInt, maxDec);
    var x := Normalized(raw);
    var ip := IntPart(x, maxInt);
    if maxDec == 0 || (DecPart(x, maxDec) == "" && !EndsWithComma(x)) {
      DigitsShape(ip);
    } else {
      PairShape(OrZero(ip), DecPart(x, maxDec));
    }
  }

  /** Digits and one comma survive the first two steps unchanged. */
  lemma NormalizedMasked(y: string)
    requires AllDigitOrComma(y)
    ensures Normalized(Str(y)) == y
  {
    assert KeepNumeric(y) == y;
    assert DotsToCommas(y) == y;
  }

  /** A masked integer part masks to itself. */
  lemma MaskOfInt(ip: string, maxInt: nat, maxDec: nat)
    requires AllDigits(ip) && NoLeadingZero(ip) && |ip| <= maxInt
    ensures MaskDecimalBR(Str(ip), maxInt, maxDec) == ip
  {
    DigitsShape(ip);
    NormalizedMasked(ip);
    MaskCases(Str(ip), maxInt, maxDec);
    assert IntPart(ip, maxInt) == ip;
    if maxDec > 0 {
      assert DecPart(ip, maxDec) == "";
      assert !EndsWithComma(ip);
    }
  }

  lemma IntPartOfPair(i: string, dec: string, maxInt: nat)
    requires AllDigits(i) && i != "" && NoLeadingZero(i) && (|i| <= maxInt || i == "0")
    requires AllDigits(dec)
    ensures AllDigitOrComma(i + "," + dec) && OrZero(IntPart(i + "," + dec, maxInt)) == i
  {
    var y := i + "," + dec;
    PairShape(i, dec);
    assert IntPart(y, maxInt) == IntDigits(i, maxInt);
    StripZerosFixed(i);
    assert IntDigits(i, maxInt) == Take(i, maxInt);
  }

  lemma StripZerosFixed(s: string)
    requires AllDigits(s) && NoLeadingZero(s)
    ensures StripLeadingZeros(s) == s
  {
  }

  lemma DecPartOfPair(i: string, dec: string, maxDec: nat)
    requires AllDigits(i) && AllDigits(dec) && |dec| <= maxDec
    ensures AllDigitOrComma(i + "," + dec) && DecPart(i + "," + dec, maxDec) == dec
  {
    PairShape(i, dec);
    DigitsHaveNoComma(dec);
  }

  /** An integer part, a comma and a decimal part, all masked, mask to
      themselves. */
  lemma MaskOfPair(i: string, dec: string, maxInt: nat, maxDec: nat)
    requires AllDigits(i) && i != "" && NoLeadingZero(i) && (|i| <= maxInt || i == "0")
    requires AllDigits(dec) && |dec| <= maxDec && maxDec > 0
    ensures MaskDecimalBR(Str(i + "," + dec), maxInt, maxDec) == i + "," + dec
  {
    var y := i + "," + dec;
    IntPartOfPair(i, dec, maxInt);
    DecPartOfPair(i, dec, maxDec);
    NormalizedMasked(y);
    MaskCases(Str(y), maxInt, maxDec);
    if dec == "" {
      assert EndsWithComma(y);
    }
  }

  /** Masking an already masked value leaves it unchanged, so re-masking a
      dose on "add" keeps what the input showed. */
  lemma MaskIdempotent(raw: JsValue, maxInt: nat, maxDec: nat)
    ensures MaskDecimalBR(Str(MaskDecimalBR(raw, maxInt, maxDec)), maxInt, maxDec)
            == MaskDecimalBR(raw, maxInt, maxDec)
  {
    if IsNullish(raw) {
      MaskOfInt("", maxInt, maxDec);
      return;
    }
    MaskCases(raw, maxInt, maxDec);
    var x := Normalized(raw);
    var ip := IntPart(x, maxInt);
    if maxDec == 0 || (DecPart(x, maxDec) == "" && !EndsWithComma(x)) {
      MaskOfInt(ip, maxInt, maxDec);
    } else {
      MaskOfPair(OrZero(ip), DecPart(x, maxDec), maxInt, maxDec);
    }
  }

  /** A separator typed with no decimals yet shows as the integer part and a
      comma, "0," when the integer part is empty. */
  lemma TrailingSeparator(raw: JsValue, maxInt: nat, maxDec: nat)
    requires !IsNullish(raw) && maxDec > 0
    requires EndsWithComma(Normalized(raw)) && DecPart(Normalized(raw), maxDec) == ""
    ensures MaskDecimalBR(raw, maxInt, maxDec) == OrZero(IntPart(Normalized(raw), maxInt)) + ","
  {
  }

  /** A medication entry as the page stores it: its dose masked with four
      integer and two decimal places. */
  function MaskDose(m: Med): (e: Med)
    ensures e.(dose := m.dose) == m
    ensures e.dose == MaskDecimalBR(Str(m.dose), 4, 2)
  {
    m.(dose := MaskDecimalBR(Str(m.dose), 4, 2))
  }

  /** The entry `addOut` appends: the trimmed name passed through
      `titleCase`, the dose masked, every other field as the form holds it. */
  function OutEntry(m: Med, titleCase: string -> string): (e: Med)
    ensures e.nome == titleCase(Trim(m.nome)) && e.dose == MaskDecimalBR(Str(m.dose), 4, 2)
    ensures e.unidade == m.unidade && e.via == m.via && e.horario == m.horario
  {
    MaskDose(m.(nome := titleCase(Trim(m.nome))))
  }

  /** Masking on "add" keeps the dose the input already showed masked. */
  lemma MaskDoseKeepsMasked(m: Med)
    ensures MaskDose(MaskDose(m)) == MaskDose(m)
  {
    MaskIdempotent(Str(m.dose), 4, 2);
  }

  /** The empty medication form. */
  function MedFormDefault(): Med {
    Med("", "", "mg", "EV", "")
  }

  /** The empty fluid form. */
  function FluidoFormDefault(): Fluido {
    Fluido("Soroterapia", "", "250ml", "")
  }

  /** A local equipment field and how the page seeds it from the stored
      equipment: the stored value or a default text (`|| d`), or the stored
      value's truthiness (`!!`). */
  datatype EquipSeed = OrText(d: string) | Flag

  const EquipFields: seq<(string, EquipSeed)> :=
    [("modelo", OrText("")), ("outros", OrText("")), ("ventilacao", OrText("Espontânea")),
     ("oxi_lpm", OrText("")), ("vent_modo", OrText("")), ("vent_fio2", OrText("")),
     ("vent_peep", OrText("")), ("vent_ie", OrText("")), ("vent_rr", OrText("")),
     ("vent_vt_ml", OrText("")), ("vent_pinsp", OrText("")), ("tci_modo", OrText("")),
     ("tci_alvo", OrText("")), ("tci_taxa_ml_h", OrText("")), ("tci_conc_val", OrText("")),
     ("tci_conc_unit", OrText("ng")), ("bis_info", OrText("")), ("tof_padrao", OrText("")),
     ("tof_musculo", OrText("")), ("tof_ratio", OrText("")), ("tof_ptc", OrText("")),
     ("tof_tetanica", Flag), ("arcomp_litros", OrText("")), ("n2o_litros", OrText("")),
     ("cam_sevo", OrText("")), ("cam_halotano", OrText("")), ("cam_isoflurano", OrText("")),
     ("cam_enflurano", OrText(""))]

  /** The seven equipment marks, each seeded with `!!`. */
  const MarkKeys: seq<string> := ["tci", "bis", "tof", "multiparam", "oxigenio", "arcomp", "n2o"]

  function Seed(eq: Obj<JsValue>, k: string, how: EquipSeed): (v: JsValue)
    ensures how.Flag? ==> v == Bool(Truthy(Get(eq, k)))
    ensures how.OrText? ==> Truthy(v) || v == Str(how.d)
    ensures how.OrText? && !Truthy(Get(eq, k)) ==> v == Str(how.d)
    ensures how.OrText? && Truthy(Get(eq, k)) ==> v == Get(eq, k)
  {
    match how
    case Flag => Bool(Truthy(Get(eq, k)))
    case OrText(d) => if Truthy(Get(eq, k)) then Get(eq, k) else Str(d)
  }

  /** The local equipment state seeded from the stored equipment. */
  function EquipLocal(eq: Obj<JsValue>, fields: seq<(string, EquipSeed)>): (r: Obj<JsValue>)
    ensures |r| == |fields|
    ensures forall i :: 0 <= i < |fields| ==> r[i] == (fields[i].0, Seed(eq, fields[i].0, fields[i].1))
  {
    if fields == [] then [] else [(fields[0].0, Seed(eq, fields[0].0, fields[0].1))] + EquipLocal(eq, fields[1..])
  }

  /** The local marks seeded from the stored equipment. */
  function MarksLocal(eq: Obj<JsValue>, keys: seq<string>): (r: Obj<bool>)
    ensures |r| == |keys|
    ensures forall i :: 0 <= i < |keys| ==> r[i] == (keys[i], Truthy(Get(eq, keys[i])))
  {
    if keys == [] then [] else [(keys[0], Truthy(Get(eq, keys[0])))] + MarksLocal(eq, keys[1..])
  }

  /** The page's local state: the three forms, their lists, the equipment
      fields and the marks. */
  datatype MedsUi = MedsUi(adm: Med, admList: seq<Med>, out: Med, outList: seq<Med>,
                           flu: Fluido, fluList: seq<Fluido>, equip: Obj<JsValue>, marks: Obj<bool>)

  /** The state the page mounts with for a stored chart. */
  function MountUi(f: Ficha): (ui: MedsUi)
    ensures ui.admList == f.meds.administradas && ui.outList == f.meds.outras
    ensures ui.fluList == f.meds.fluidos
    ensures ui.adm == MedFormDefault() && ui.out == MedFormDefault() && ui.flu == FluidoFormDefault()
  {
    MedsUi(MedFormDefault(), f.meds.administradas, MedFormDefault(), f.meds.outras,
           FluidoFormDefault(), f.meds.fluidos, EquipLocal(f.meds.equipamentos, EquipFields),
           MarksLocal(f.meds.equipamentos, MarkKeys))
  }

  /** The local lists show what the store holds. */
  predicate ListsMatch(ui: MedsUi, f: Ficha) {
    ui.admList == f.meds.administradas && ui.outList == f.meds.outras && ui.fluList == f.meds.fluidos
  }

  /** The page over the store. */
  class MedsPage {
    const store: FichaStorage.Store
    var ui: MedsUi

    constructor (st: FichaStorage.Store)
      ensures store == st && ui == MountUi(st.Value())
      ensures ListsMatch(ui, st.Value())
    {
      store := st;
      ui := MountUi(st.Value());
    }

    /** `addAdm()`: a drug without a name is refused; otherwise the entry,
        its dose masked, is appended locally and in the store, and the form
        is cleared. */
    method AddAdm()
      modifies this, store, store.initMeds
      ensures old(ui.adm.nome) == "" ==> ui == old(ui) && store.Value() == old(store.Value())
      ensures old(ui.adm.nome) != "" ==>
                var e := MaskDose(old(ui.adm));
                ui == old(ui).(adm := MedFormDefault(), admList := old(ui.admList) + [e])
                && store.Value() == FichaContext.AddMedAdministrada(old(store.Value()), e)
      ensures old(ListsMatch(ui, store.Value())) ==> ListsMatch(ui, store.Value())
    {
      if ui.adm.nome == "" {
        return;
      }
      var e := MaskDose(ui.adm);
      ui := ui.(adm := MedFormDefault(), admList := ui.admList + [e]);
      store.AddMedAdministrada(e);
    }

    /** `delAdm(i)`: the entry at `i` leaves the local list and the store. */
    method DelAdm(i: int)
      modifies this, store, store.initMeds
      ensures ui == old(ui).(admList := ExceptIndex(old(ui.admList), i))
      ensures store.Value() == FichaContext.RemoveMedAdministrada(old(store.Value()), i)
      ensures old(ListsMatch(ui, store.Value())) ==> ListsMatch(ui, store.Value())
    {
      ui := ui.(admList := ExceptIndex(ui.admList, i));
      store.RemoveMedAdministrada(i);
    }

    /** `addOut()`: a name that trims to nothing is refused; otherwise the
        entry, its trimmed name passed through `titleCase` and its dose
        masked, is appended locally and in the store. */
    method AddOut(titleCase: string -> string)
      modifies this, store, store.initMeds
      ensures Trim(old(ui.out.nome)) == "" ==> ui == old(ui) && store.Value() == old(store.Value())
      ensures Trim(old(ui.out.nome)) != "" ==>
                ui == old(ui).(out := MedFormDefault(), outList := old(ui.outList) + [OutEntry(old(ui.out), titleCase)])
                && store.Value() == FichaContext.AddOutraMed(old(store.Value()), OutEntry(old(ui.out), titleCase))
      ensures old(ListsMatch(ui, store.Value())) ==> ListsMatch(ui, store.Value())
    {
      if Trim(ui.out.nome) == "" {
        return;
      }
      var e := OutEntry(ui.out, titleCase);
      ui := ui.(out := MedFormDefault(), outList := ui.outList + [e]);
      store.AddOutraMed(e);
    }

    method DelOut(i: int)
      modifies this, store, store.initMeds
      ensures ui == old(ui).(outList := ExceptIndex(old(ui.outList), i))
      ensures store.Value() == FichaContext.RemoveOutraMed(old(store.Value()), i)
      ensures old(ListsMatch(ui, store.Value())) ==> ListsMatch(ui, store.Value())
    {
      ui := ui.(outList := ExceptIndex(ui.outList, i));
      store.RemoveOutraMed(i);
    }

    /** `addFlu()`: no fluid chosen, nothing added; otherwise the form is
        appended as it stands and cleared. */
    method AddFlu()
      modifies this, store, store.initMeds
      ensures old(ui.flu.fluido) == "" ==> ui == old(ui) && store.Value() == old(store.Value())
      ensures old(ui.flu.fluido) != "" ==>
                ui == old(ui).(flu := FluidoFormDefault(), fluList := old(ui.fluList) + [old(ui.flu)])
                && store.Value() == FichaContext.AddFluido(old(store.Value()), old(ui.flu))
      ensures old(ListsMatch(ui, store.Value())) ==> ListsMatch(ui, store.Value())
    {
      if ui.flu.fluido == "" {
        return;
      }
      var e := ui.flu;
      ui := ui.(flu := FluidoFormDefault(), fluList := ui.fluList + [e]);
      store.AddFluido(e);
    }

    method DelFlu(i: int)
      modifies this, store, store.initMeds
      ensures ui == old(ui).(fluList := ExceptIndex(old(ui.fluList), i))
      ensures store.Value() == FichaContext.RemoveFluido(old(store.Value()), i)
      ensures old(ListsMatch(ui, store.Value())) ==> ListsMatch(ui, store.Value())
    {
      ui := ui.(fluList := ExceptIndex(ui.fluList, i));
      store.RemoveFluido(i);
    }

    /** Choosing a fluid type clears the chosen fluid, so a following
        `addFlu()` adds nothing until a fluid of the new type is chosen. */
    method SelectFluidType(tipo: string)
      modifies this
      ensures ui == old(ui).(flu := old(ui.flu).(tipo := tipo, fluido := ""))
      ensures ui.flu.fluido == ""
    {
      ui := ui.(flu := ui.flu.(tipo := tipo, fluido := ""));
    }

    /** `setEquipField(k, v)`: key `k` of the local fields and of the stored
        equipment takes `v`; nothing else changes. */
    method SetEquipField(k: string, v: JsValue)
      modifies this, store, store.initMeds
      ensures ui == old(ui).(equip := Set(old(ui.equip), k, v))
      ensures store.Value() == FichaContext.SetEquipamentos(old(store.Value()), [(k, v)])
      ensures Lookup(store.Value().meds.equipamentos, k) == Some(v)
      ensures forall j :: j != k ==>
                Lookup(store.Value().meds.equipamentos, j) == Lookup(old(store.Value()).meds.equipamentos, j)
    {
      ui := ui.(equip := Set(ui.equip, k, v));
      store.SetEquip([(k, v)]);
      SpreadOne(old(store.Value()).meds.equipamentos, k, v);
    }

    /** Clicking a mark flips it locally and stores the new flag. */
    method ToggleMark(k: string)
      modifies this, store, store.initMeds
      ensures ui == old(ui).(marks := Set(old(ui.marks), k, !Lookup(old(ui.marks), k).GetOr(false)))
      ensures store.Value() == FichaContext.SetEquipamentos(old(store.Value()),
                                 [(k, Bool(!Lookup(old(ui.marks), k).GetOr(false)))])
    {
      var v := !Lookup(ui.marks, k).GetOr(false);
      ui := ui.(marks := Set(ui.marks, k, v));
      store.SetEquip([(k, Bool(v))]);
    }
  }
}

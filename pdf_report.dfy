/** The report's text rules: which rows and values the chart's PDF shows,
    the Aldrete total it prints, and the substitution of the characters the
    fallback font lacks. */
module PdfReport {
  import opened Js
  import opened JsObject
  import opened FichaSchema

  /** The dash shown for a missing value (U+2014). */
  const Dash: string := "\U{2014}"

  /** `score(idx = 0)`: `[0, 1, 2][idx] ?? 0`; a missing index reads as 0. */
  function Score(idx: Option<int>): (r: int)
    ensures 0 <= r <= 2
    ensures idx.Some? && 0 <= idx.value <= 2 ==> r == idx.value
    ensures !(idx.Some? && 0 <= idx.value <= 2) ==> r == 0
  {
    var i := idx.GetOr(0);
    if 0 <= i < 3 then [0, 1, 2][i] else 0
  }

  /** The five Aldrete categories, in the order the report adds them. */
  const AldreteKeys: seq<string> := ["atividade", "respiracao", "circulacao", "consciencia", "saturacao"]

  /** The Aldrete total the report prints. */
  function ReportAldreteTotal(a: Obj<int>): (tot: int)
    ensures 0 <= tot <= 10
  {
    Score(Lookup(a, "atividade")) + Score(Lookup(a, "respiracao")) + Score(Lookup(a, "circulacao"))
    + Score(Lookup(a, "consciencia")) + Score(Lookup(a, "saturacao"))
  }

  /** `safe(v)`: the dash for `null`, `undefined` and `""`, the value itself
      otherwise. */
  function Safe(v: JsValue): (r: JsValue)
    ensures IsNullish(v) || v == Str("") ==> r == Str(Dash)
    ensures !(IsNullish(v) || v == Str("")) ==> r == v
  {
    if v.Undefined? || v.Null? || v == Str("") then Str(Dash) else v
  }

  /** `val(v)`: like `safe`, but always text. */
  function Val(v: JsValue): (r: string)
    ensures IsNullish(v) || v == Str("") ==> r == Dash
    ensures !(IsNullish(v) || v == Str("")) ==> r == ToJsString(v)
  {
    if v.Undefined? || v.Null? || v == Str("") then Dash else ToJsString(v)
  }

  /** `safe` and `val` print the same text. */
  lemma SafeValAgree(v: JsValue)
    ensures ToJsString(Safe(v)) == Val(v)
  {
  }

  /** `u(s)`: the value as text (`null` and `undefined` as ""), passed
      through `deunicode` when the Unicode font is not available. */
  function U(unicode: bool, v: JsValue): (r: string)
    ensures unicode ==> r == ToJsString(if IsNullish(v) then Str("") else v)
    ensures !unicode ==> r == Deunicode(ToJsString(if IsNullish(v) then Str("") else v))
  {
    var s := ToJsString(if IsNullish(v) then Str("") else v);
    if unicode then s else Deunicode(s)
  }

  /** A report row: a label and the value shown beside it. */
  type Row = (string, JsValue)

  /** The labels `mapEquip` knows. */
  const EquipLabels: Obj<string> :=
    [("tci", "Bomba TCI/TIVA"), ("bis", "Monitor BIS"), ("tof", "Monitor TOF"),
     ("multiparam", "Monitor Multiparamétrico"), ("oxigenio", "OXIGÊNIO"),
     ("arcomp", "Ar Comprimido"), ("n2o", "Óxido Nitroso (N\U{2082}O)")]

  /** `mapEquip(k)`: the known label, or the key itself. */
  function MapEquip(k: string): (r: string)
    ensures HasKey(EquipLabels, k) ==> r == Lookup(EquipLabels, k).value && r != ""
    ensures !HasKey(EquipLabels, k) ==> r == k
  {
    match Lookup(EquipLabels, k)
    case Some(l) => l
    case None => k
  }

  /** The keys that are settings rather than marks, never listed as marked
      equipment. */
  const Excl: seq<string> :=
    ["modelo", "outros", "ventilacao", "vent_modo", "vent_fio2", "vent_peep", "vent_ie", "vent_rr",
     "vent_vt_ml", "vent_pinsp", "oxi_lpm", "tci_modo", "tci_alvo", "tci_taxa_ml_h", "tci_conc_val",
     "tci_conc_unit", "bis_info", "tof_padrao", "tof_musculo", "tof_ratio", "tof_ptc", "tof_tetanica",
     "arcomp_litros", "n2o_litros", "cam_sevo", "cam_halotano", "cam_isoflurano", "cam_enflurano"]

  /** An entry that is listed as marked equipment. */
  predicate IsMarked(e: (string, JsValue)) {
    e.0 !in Excl && Truthy(e.1)
  }

  /** The keys of the marked entries, in the object's order. */
  function MarkedKeys(eq: Obj<JsValue>): (ks: seq<string>)
    ensures |ks| <= |eq|
  {
    if eq == [] then [] else (if IsMarked(eq[0]) then [eq[0].0] else []) + MarkedKeys(eq[1..])
  }

  /** The marked keys are exactly the keys of the marked entries. */
  lemma {:induction false} MarkedKeysExactly(eq: Obj<JsValue>)
    ensures forall i :: 0 <= i < |eq| && IsMarked(eq[i]) ==> eq[i].0 in MarkedKeys(eq)
    ensures forall j :: 0 <= j < |MarkedKeys(eq)| ==>
              exists i :: 0 <= i < |eq| && eq[i].0 == MarkedKeys(eq)[j] && IsMarked(eq[i])
    ensures (forall i :: 0 <= i < |eq| ==> !IsMarked(eq[i])) ==> MarkedKeys(eq) == []
  {
    if eq != [] {
      var tail := eq[1..];
      MarkedKeysExactly(tail);
      var rest := MarkedKeys(tail);
      var head := if IsMarked(eq[0]) then [eq[0].0] else [];
      assert MarkedKeys(eq) == head + rest;
      forall j | 0 <= j < |MarkedKeys(eq)|
        ensures exists i :: 0 <= i < |eq| && eq[i].0 == MarkedKeys(eq)[j] && IsMarked(eq[i])
      {
        if j < |head| {
          assert eq[0].0 == MarkedKeys(eq)[j] && IsMarked(eq[0]);
        } else {
          assert MarkedKeys(eq)[j] == rest[j - |head|];
          var i :| 0 <= i < |tail| && tail[i].0 == rest[j - |head|] && IsMarked(tail[i]);
          assert eq[i + 1] == tail[i];
          assert eq[i + 1].0 == MarkedKeys(eq)[j] && IsMarked(eq[i + 1]);
        }
      }
      forall i | 0 <= i < |eq| && IsMarked(eq[i]) ensures eq[i].0 in MarkedKeys(eq) {
        if i > 0 {
          assert tail[i - 1] == eq[i];
        }
      }
      if forall i :: 0 <= i < |eq| ==> !IsMarked(eq[i]) {
        forall i | 0 <= i < |tail| ensures !IsMarked(tail[i]) {
          assert tail[i] == eq[i + 1];
        }
      }
    } else {
      assert MarkedKeys(eq) == [];
    }
  }

  /** The selection keeps the object's order: the marked keys of two runs
      of entries are the marked keys of the first followed by those of the
      second. */
  lemma {:induction false} MarkedKeysConcat(a: Obj<JsValue>, b: Obj<JsValue>)
    ensures MarkedKeys(a + b) == MarkedKeys(a) + MarkedKeys(b)
  {
    if a != [] {
      assert (a + b)[1..] == a[1..] + b;
      MarkedKeysConcat(a[1..], b);
    } else {
      assert a + b == b;
    }
  }

  /** `ks.map(f)`: each key through `f`, one for one and in order. */
  function MapSeq(ks: seq<string>, f: string -> string): (ls: seq<string>)
    ensures |ls| == |ks| && forall i :: 0 <= i < |ks| ==> ls[i] == f(ks[i])
  {
    if ks == [] then [] else [f(ks[0])] + MapSeq(ks[1..], f)
  }

  /** `parts.join(sep)`. */
  function Join(parts: seq<string>, sep: string): (r: string)
    ensures parts == [] ==> r == ""
    ensures parts != [] && parts[0] != "" ==> r != ""
  {
    if parts == [] then ""
    else if |parts| == 1 then parts[0]
    else parts[0] + sep + Join(parts[1..], sep)
  }

  /** The "Equipamentos (marcados)" value before `u`: the labels of the
      marked entries joined with ", ", or the dash when there is none. */
  function Marcados(eq: Obj<JsValue>): (r: string)
    ensures MarkedKeys(eq) == [] ==> r == Dash
    ensures MarkedKeys(eq) != [] && MarkedKeys(eq)[0] != "" ==> r == Join(MapSeq(MarkedKeys(eq), MapEquip), ", ")
  {
    var m := Join(MapSeq(MarkedKeys(eq), MapEquip), ", ");
    if m == "" then Dash else m
  }

  /** Only mark keys can be listed: a default chart lists none. */
  lemma DefaultMarksNone()
    ensures MarkedKeys(EquipamentosDefault()) == []
    ensures Marcados(EquipamentosDefault()) == Dash
  {
    var eq := EquipamentosDefault();
    assert forall i :: 0 <= i < |eq| ==> !IsMarked(eq[i]);
    MarkedKeysExactly(eq);
  }

  /** The ventilation block appears for a mechanical ventilation mode. */
  predicate VentilationShown(eq: Obj<JsValue>) {
    Truthy(Get(eq, "ventilacao")) && Get(eq, "ventilacao") != Str("Espontânea")
  }

  /** `vent_modo?.startsWith("VCV") || vent_modo === "SIMV"`. */
  predicate IsVolumeMode(modo: JsValue) {
    (modo.Str? && StartsWith(modo.s, "VCV")) || modo == Str("SIMV")
  }

  /** The ventilation rows: the mode, FiO2, PEEP, I:E and rate, then the
      tidal volume for volume modes or the inspiratory pressure otherwise. */
  function VentilationRows(unicode: bool, eq: Obj<JsValue>): (rows: seq<Row>)
    ensures !VentilationShown(eq) ==> rows == []
    ensures VentilationShown(eq) ==> |rows| == 6 && rows[0] == ("Modo ventilatório", Safe(Get(eq, "vent_modo")))
    ensures VentilationShown(eq) && IsVolumeMode(Get(eq, "vent_modo")) ==>
              rows[5] == ("Vt (mL)", Safe(Get(eq, "vent_vt_ml")))
    ensures VentilationShown(eq) && !IsVolumeMode(Get(eq, "vent_modo")) ==>
              rows[5] == (if unicode then "P. Inspiração (cmH\U{2082}O)" else "P. Inspiração (cmH2O)",
                            Safe(Get(eq, "vent_pinsp")))
  {
    if !VentilationShown(eq) then []
    else
      var vol := IsVolumeMode(Get(eq, "vent_modo"));
      [("Modo ventilatório", Safe(Get(eq, "vent_modo"))),
       (if unicode then "FiO\U{2082} (%)" else "FiO2 (%)", Safe(Get(eq, "vent_fio2"))),
       (if unicode then "PEEP (cmH\U{2082}O)" else "PEEP (cmH2O)", Safe(Get(eq, "vent_peep"))),
       ("I:E", Safe(Get(eq, "vent_ie"))),
       ("FR (irpm)", Safe(Get(eq, "vent_rr"))),
       if vol then ("Vt (mL)", Safe(Get(eq, "vent_vt_ml")))
       else (if unicode then "P. Inspiração (cmH\U{2082}O)" else "P. Inspiração (cmH2O)",
               Safe(Get(eq, "vent_pinsp")))]
  }

  /** A target-controlled infusion mode. */
  predicate IsTargetMode(modo: JsValue) {
    modo == Str("TCI - Schneider") || modo == Str("TCI - Marsh")
  }

  /** The target concentration: value and unit ("ng" when none), or empty
      when there is no value. */
  function TciConc(eq: Obj<JsValue>): (r: string)
    ensures !Truthy(Get(eq, "tci_conc_val")) ==> r == ""
    ensures Truthy(Get(eq, "tci_conc_val")) && !Truthy(Get(eq, "tci_conc_unit")) ==>
              r == ToJsString(Get(eq, "tci_conc_val")) + " ng"
    ensures Truthy(Get(eq, "tci_conc_val")) && Truthy(Get(eq, "tci_conc_unit")) ==>
              r == ToJsString(Get(eq, "tci_conc_val")) + " " + ToJsString(Get(eq, "tci_conc_unit"))
  {
    var v := Get(eq, "tci_conc_val");
    var unit := Get(eq, "tci_conc_unit");
    if Truthy(v) then ToJsString(v) + " " + (if Truthy(unit) then ToJsString(unit) else "ng") else ""
  }

  /** The infusion-pump rows: the mode, then target and concentration for
      the TCI modes, or the rate for volumetric TIVA. */
  function TciRows(eq: Obj<JsValue>): (rows: seq<Row>)
    ensures !Truthy(Get(eq, "tci")) ==> rows == []
    ensures Truthy(Get(eq, "tci")) ==> rows != [] && rows[0] == ("Bomba", Safe(Get(eq, "tci_modo")))
    ensures Truthy(Get(eq, "tci")) && IsTargetMode(Get(eq, "tci_modo")) ==>
              |rows| == 3 && rows[1] == ("Alvo TCI", Safe(Get(eq, "tci_alvo")))
              && rows[2] == ("Concentração alvo", Str(if TciConc(eq) == "" then Dash else TciConc(eq)))
    ensures Truthy(Get(eq, "tci")) && Get(eq, "tci_modo") == Str("TIVA volumétrica (mL/h)") ==>
              |rows| == 2 && rows[1] == ("Taxa (mL/h)", Safe(Get(eq, "tci_taxa_ml_h")))
    ensures Truthy(Get(eq, "tci")) && !IsTargetMode(Get(eq, "tci_modo")) && Get(eq, "tci_modo") != Str("TIVA volumétrica (mL/h)")
            ==> |rows| == 1
  {
    if !Truthy(Get(eq, "tci")) then []
    else
      var modo := Get(eq, "tci_modo");
      var bomba := ("Bomba", Safe(modo));
      if IsTargetMode(modo) then
        var conc := TciConc(eq);
        [bomba, ("Alvo TCI", Safe(Get(eq, "tci_alvo"))),
         ("Concentração alvo", Str(if conc == "" then Dash else conc))]
      else if modo == Str("TIVA volumétrica (mL/h)") then
        [bomba, ("Taxa (mL/h)", Safe(Get(eq, "tci_taxa_ml_h")))]
      else [bomba]
  }

  /** The neuromuscular-monitor rows: pattern, muscle and ratio, then the
      post-tetanic count for "PTC" or whether a tetanic stimulus was applied
      for "Tetânico". */
  function TofRows(eq: Obj<JsValue>): (rows: seq<Row>)
    ensures !Truthy(Get(eq, "tof")) ==> rows == []
    ensures Truthy(Get(eq, "tof")) ==> |rows| == (if Get(eq, "tof_padrao") == Str("PTC") || Get(eq, "tof_padrao") == Str("Tetânico") then 4 else 3)
    ensures Truthy(Get(eq, "tof")) && Get(eq, "tof_padrao") == Str("PTC") ==>
              rows[3] == ("TOF \U{2014} PTC (0\U{2013}4)", Safe(Get(eq, "tof_ptc")))
    ensures Truthy(Get(eq, "tof")) && Get(eq, "tof_padrao") == Str("Tetânico") ==>
              rows[3] == ("TOF \U{2014} Tetânica aplicada",
                            Str(if Truthy(Get(eq, "tof_tetanica")) then "Sim" else "Não"))
  {
    if !Truthy(Get(eq, "tof")) then []
    else
      var padrao := Get(eq, "tof_padrao");
      var base := [("TOF \U{2014} Padrão", Safe(padrao)),
                   ("TOF \U{2014} Músculo", Safe(Get(eq, "tof_musculo"))),
                   ("TOF \U{2014} Razão (%)", Safe(Get(eq, "tof_ratio")))];
      if padrao == Str("PTC") then
        base + [("TOF \U{2014} PTC (0\U{2013}4)", Safe(Get(eq, "tof_ptc")))]
      else if padrao == Str("Tetânico") then
        base + [("TOF \U{2014} Tetânica aplicada", Str(if Truthy(Get(eq, "tof_tetanica")) then "Sim" else "Não"))]
      else base
  }

  /** The adverse-event rows: whether there were any, and the description
      only when there were. */
  function InterRows(i: Intercorrencias): (rows: seq<Row>)
    ensures |rows| == 2
    ensures rows[0] == ("Houve intercorrências?", Str(if i.houve then "Sim" else "Não"))
    ensures i.houve ==> rows[1] == ("Descrição", Safe(Str(i.texto)))
    ensures !i.houve ==> rows[1] == ("Descrição", Str(Dash))
  {
    [("Houve intercorrências?", Str(if i.houve then "Sim" else "Não")),
     ("Descrição", if i.houve then Safe(Str(i.texto)) else Str(Dash))]
  }

  /** Unchecking the box hides any text that is still stored. */
  lemma InterTextHiddenWhenUnchecked(texto: string, other: string)
    ensures InterRows(Intercorrencias(false, texto)) == InterRows(Intercorrencias(false, other))
  {
  }

  /** The characters `deunicode` replaces, in the order it replaces them,
      with their plain substitutes. */
  const Substitutions: seq<(char, char)> :=
    [('\U{2014}', '-'), ('\U{2013}', '-'), ('\U{2022}', '\U{00B7}'), ('\U{00BA}', 'o'), ('\U{00AA}', 'a'),
     ('\U{2080}', '0'), ('\U{2081}', '1'), ('\U{2082}', '2'), ('\U{2083}', '3'), ('\U{2084}', '4'),
     ('\U{2085}', '5'), ('\U{2086}', '6'), ('\U{2087}', '7'), ('\U{2088}', '8'), ('\U{2089}', '9'),
     ('\U{208D}', '('), ('\U{208E}', ')'), ('\U{208A}', '+'), ('\U{208B}', '-'), ('\U{00A0}', ' ')]

  /** `s.replaceAll(a, b)` for a one-character `a`. */
  function ReplaceAll(s: string, a: char, b: char): (r: string)
    ensures |r| == |s|
    ensures forall i :: 0 <= i < |s| ==> r[i] == if s[i] == a then b else s[i]
  {
    if s == [] then [] else [if s[0] == a then b else s[0]] + ReplaceAll(s[1..], a, b)
  }

  /** The chain of `replaceAll` calls. */
  function ReplaceChain(s: string, subs: seq<(char, char)>): (r: string)
    ensures |r| == |s|
    decreases subs
  {
    if subs == [] then s else ReplaceChain(ReplaceAll(s, subs[0].0, subs[0].1), subs[1..])
  }

  /** What the chain does to one character. */
  function ChainChar(c: char, subs: seq<(char, char)>): char
    decreases subs
  {
    if subs == [] then c else ChainChar(if c == subs[0].0 then subs[0].1 else c, subs[1..])
  }

  lemma {:induction false} ReplaceChainAt(s: string, subs: seq<(char, char)>)
    ensures forall i :: 0 <= i < |s| ==> ReplaceChain(s, subs)[i] == ChainChar(s[i], subs)
    decreases subs
  {
    if subs != [] {
      ReplaceChainAt(ReplaceAll(s, subs[0].0, subs[0].1), subs[1..]);
    }
  }

  /** Whether a character is replaced by one of the steps. */
  predicate IsSource(c: char, subs: seq<(char, char)>) {
    subs != [] && (c == subs[0].0 || IsSource(c, subs[1..]))
  }

  /** The substitute of a character: the first pair it matches, or itself. */
  function Substitute(c: char, subs: seq<(char, char)>): (d: char)
    ensures !IsSource(c, subs) ==> d == c
  {
    if subs == [] then c else if c == subs[0].0 then subs[0].1 else Substitute(c, subs[1..])
  }

  /** The characters the substitutes are drawn from. */
  const Plain: set<char> :=
    {'-', '\U{00B7}', 'o', 'a', '0', '1', '2', '3', '4', '5', '6', '7', '8', '9', '(', ')', '+', ' '}

  /** Every substitute is plain and no replaced character is. */
  predicate Separated(subs: seq<(char, char)>, plain: set<char>) {
    forall k :: 0 <= k < |subs| ==> subs[k].1 in plain && subs[k].0 !in plain
  }

  lemma SubstitutionsSeparated()
    ensures Separated(Substitutions, Plain)
  {
  }

  lemma SeparatedTail(subs: seq<(char, char)>, plain: set<char>)
    requires subs != [] && Separated(subs, plain)
    ensures Separated(subs[1..], plain)
  {
    forall k | 0 <= k < |subs| - 1 ensures subs[1..][k].1 in plain && subs[1..][k].0 !in plain {
      assert subs[1..][k] == subs[k + 1];
    }
  }

  lemma {:induction false} PlainIsNotSource(c: char, subs: seq<(char, char)>, plain: set<char>)
    requires Separated(subs, plain) && c in plain
    ensures !IsSource(c, subs)
  {
    if subs != [] {
      assert subs[0].0 != c;
      SeparatedTail(subs, plain);
      PlainIsNotSource(c, subs[1..], plain);
    }
  }

  lemma {:induction false} SourceBecomesPlain(c: char, subs: seq<(char, char)>, plain: set<char>)
    requires Separated(subs, plain) && IsSource(c, subs)
    ensures Substitute(c, subs) in plain
  {
    if c != subs[0].0 {
      SeparatedTail(subs, plain);
      SourceBecomesPlain(c, subs[1..], plain);
    }
  }

  lemma {:induction false} ChainCharUntouched(c: char, subs: seq<(char, char)>)
    requires !IsSource(c, subs)
    ensures ChainChar(c, subs) == c
  {
    if subs != [] {
      ChainCharUntouched(c, subs[1..]);
    }
  }

  /** Because no substitute is replaced again, running the steps one after
      another substitutes each character once. */
  lemma {:induction false} ChainCharIsSubstitute(c: char, subs: seq<(char, char)>, plain: set<char>)
    requires Separated(subs, plain)
    ensures ChainChar(c, subs) == Substitute(c, subs)
  {
    if subs != [] {
      SeparatedTail(subs, plain);
      if c == subs[0].0 {
        PlainIsNotSource(subs[0].1, subs[1..], plain);
        ChainCharUntouched(subs[0].1, subs[1..]);
      } else {
        ChainCharIsSubstitute(c, subs[1..], plain);
      }
    }
  }

  /** `deunicode(s)`: the empty text unchanged, otherwise the chain. */
  function Deunicode(s: string): (r: string)
    ensures |r| == |s|
    ensures s == "" ==> r == s
  {
    if s == "" then s else ReplaceChain(s, Substitutions)
  }

  /** Each character is replaced by its substitute, independently of the
      others. */
  lemma DeunicodeAt(s: string)
    ensures forall i :: 0 <= i < |s| ==> Deunicode(s)[i] == Substitute(s[i], Substitutions)
  {
    if s != "" {
      ReplaceChainAt(s, Substitutions);
      SubstitutionsSeparated();
      forall i | 0 <= i < |s| ensures Deunicode(s)[i] == Substitute(s[i], Substitutions) {
        ChainCharIsSubstitute(s[i], Substitutions, Plain);
      }
    }
  }

  /** A substitute is never a replaced character. */
  lemma SubstituteIsNotSource(c: char)
    ensures !IsSource(Substitute(c, Substitutions), Substitutions)
  {
    SubstitutionsSeparated();
    if IsSource(c, Substitutions) {
      SourceBecomesPlain(c, Substitutions, Plain);
      PlainIsNotSource(Substitute(c, Substitutions), Substitutions, Plain);
    }
  }

  /** After `deunicode` no replaced character is left. */
  lemma DeunicodeLeavesNoSource(s: string)
    ensures forall i :: 0 <= i < |s| ==> !IsSource(Deunicode(s)[i], Substitutions)
  {
    DeunicodeAt(s);
    forall i | 0 <= i < |s| ensures !IsSource(Deunicode(s)[i], Substitutions) {
      SubstituteIsNotSource(s[i]);
    }
  }

  /** `deunicode` is idempotent. */
  lemma DeunicodeIdempotent(s: string)
    ensures Deunicode(Deunicode(s)) == Deunicode(s)
  {
    var t := Deunicode(s);
    DeunicodeLeavesNoSource(s);
    DeunicodeAt(t);
  }

  /** Text made only of characters the fallback font has is printed as is. */
  lemma DeunicodeKeepsPlainText(s: string)
    requires forall i :: 0 <= i < |s| ==> !IsSource(s[i], Substitutions)
    ensures Deunicode(s) == s
  {
    DeunicodeAt(s);
  }
}

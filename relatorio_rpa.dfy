/** The recovery-room page: the drug and material expense lists, the
    discharge notes and the Aldrete score with its risk band. */
module RelatorioRpa {
  import opened Js
  import opened JsObject
  import opened FichaSchema
  import FichaContext
  import FichaStorage
  import PdfReport

  // ---------------------------------------------------------------- Aldrete

  /** One Aldrete category: its key, its title and the score of each option. */
  datatype Category = Category(key: string, title: string, scores: seq<int>)

  /** `ALDRETE`: five categories, each with three options scored 0, 1, 2. */
  const AldreteTable: seq<Category> :=
    [Category("atividade", "Atividade (0\U{2013}2)", [0, 1, 2]),
     Category("respiracao", "Respiração (0\U{2013}2)", [0, 1, 2]),
     Category("circulacao", "Circulação (0\U{2013}2)", [0, 1, 2]),
     Category("consciencia", "Consciência (0\U{2013}2)", [0, 1, 2]),
     Category("saturacao", "Saturação O\U{2082} (0\U{2013}2)", [0, 1, 2])]

  /** The page's categories are the five the report adds up. */
  lemma TableKeysAreReportKeys()
    ensures |AldreteTable| == |PdfReport.AldreteKeys|
    ensures forall i :: 0 <= i < |AldreteTable| ==> AldreteTable[i].key == PdfReport.AldreteKeys[i]
  {
  }

  /** `ALDRETE[k].options[idx]?.s ?? 0`: the score of the chosen option, 0
      for an index with no option. */
  function OptionScore(c: Category, idx: int): (r: int)
    ensures 0 <= idx < |c.scores| ==> r == c.scores[idx]
    ensures !(0 <= idx < |c.scores|) ==> r == 0
  {
    if 0 <= idx < |c.scores| then c.scores[idx] else 0
  }

  /** The page's option score and the report's `score` agree on every index. */
  lemma OptionScoreIsReportScore(i: nat, idx: int)
    requires i < |AldreteTable|
    ensures OptionScore(AldreteTable[i], idx) == PdfReport.Score(Some(idx))
  {
  }

  /** Each criterion scores its option's index, from 0 to 2. */
  lemma OptionScoreIsIndex(i: nat, idx: int)
    requires i < |AldreteTable|
    ensures OptionScore(AldreteTable[i], idx) == if 0 <= idx <= 2 then idx else 0
  {
  }

  /** The page's local Aldrete choices, one option index per category. */
  datatype Choices = Choices(atividade: int, respiracao: int, circulacao: int, consciencia: int, saturacao: int)

  /** `s.rpa.aldrete?.k || 0` for each category: a missing choice is 0. */
  function Seed(a: Obj<int>): (c: Choices)
    ensures c.atividade == Lookup(a, "atividade").GetOr(0) && c.respiracao == Lookup(a, "respiracao").GetOr(0)
    ensures c.circulacao == Lookup(a, "circulacao").GetOr(0) && c.consciencia == Lookup(a, "consciencia").GetOr(0)
    ensures c.saturacao == Lookup(a, "saturacao").GetOr(0)
  {
    Choices(Lookup(a, "atividade").GetOr(0), Lookup(a, "respiracao").GetOr(0), Lookup(a, "circulacao").GetOr(0),
            Lookup(a, "consciencia").GetOr(0), Lookup(a, "saturacao").GetOr(0))
  }

  /** `{ ...s, [key]: idx }` on the local choices. */
  function Choose(c: Choices, key: string, idx: int): (r: Choices)
    requires key in PdfReport.AldreteKeys
    ensures key == "atividade" ==> r == c.(atividade := idx)
    ensures key == "respiracao" ==> r == c.(respiracao := idx)
    ensures key == "circulacao" ==> r == c.(circulacao := idx)
    ensures key == "consciencia" ==> r == c.(consciencia := idx)
    ensures key == "saturacao" ==> r == c.(saturacao := idx)
  {
    match key
    case "atividade" => c.(atividade := idx)
    case "respiracao" => c.(respiracao := idx)
    case "circulacao" => c.(circulacao := idx)
    case "consciencia" => c.(consciencia := idx)
    case _ => c.(saturacao := idx)
  }

  /** The total shown on the page, out of 10. */
  function PageTotal(c: Choices): (t: int)
    ensures 0 <= t <= 10
  {
    OptionScore(AldreteTable[0], c.atividade) + OptionScore(AldreteTable[1], c.respiracao)
    + OptionScore(AldreteTable[2], c.circulacao) + OptionScore(AldreteTable[3], c.consciencia)
    + OptionScore(AldreteTable[4], c.saturacao)
  }

  /** The local choices say what the stored scores say. */
  predicate AldreteInSync(c: Choices, a: Obj<int>) {
    c.atividade == Lookup(a, "atividade").GetOr(0) && c.respiracao == Lookup(a, "respiracao").GetOr(0)
    && c.circulacao == Lookup(a, "circulacao").GetOr(0) && c.consciencia == Lookup(a, "consciencia").GetOr(0)
    && c.saturacao == Lookup(a, "saturacao").GetOr(0)
  }

  /** Choosing the same option on the page and in the store keeps them in
      step. */
  lemma ChooseKeepsSync(c: Choices, a: Obj<int>, key: string, idx: int)
    requires key in PdfReport.AldreteKeys && AldreteInSync(c, a)
    ensures AldreteInSync(Choose(c, key, idx), Set(a, key, idx))
  {
    var b := Set(a, key, idx);
    assert Lookup(b, key) == Some(idx);
    if key == "atividade" {
      LookupOthers(a, key, idx, "respiracao", "circulacao", "consciencia", "saturacao");
    } else if key == "respiracao" {
      LookupOthers(a, key, idx, "atividade", "circulacao", "consciencia", "saturacao");
    } else if key == "circulacao" {
      LookupOthers(a, key, idx, "atividade", "respiracao", "consciencia", "saturacao");
    } else if key == "consciencia" {
      LookupOthers(a, key, idx, "atividade", "respiracao", "circulacao", "saturacao");
    } else {
      LookupOthers(a, key, idx, "atividade", "respiracao", "circulacao", "consciencia");
    }
  }

  lemma LookupOthers(a: Obj<int>, key: string, idx: int, k1: string, k2: string, k3: string, k4: string)
    requires key != k1 && key != k2 && key != k3 && key != k4
    ensures Lookup(Set(a, key, idx), k1) == Lookup(a, k1) && Lookup(Set(a, key, idx), k2) == Lookup(a, k2)
    ensures Lookup(Set(a, key, idx), k3) == Lookup(a, k3) && Lookup(Set(a, key, idx), k4) == Lookup(a, k4)
  {
  }

  /** While in step, the page's total is the total the report prints. */
  lemma SyncedTotalIsReportTotal(c: Choices, a: Obj<int>)
    requires AldreteInSync(c, a)
    ensures PageTotal(c) == PdfReport.ReportAldreteTotal(a)
  {
    OptionScoreIsReportScore(0, c.atividade);
    OptionScoreIsReportScore(1, c.respiracao);
    OptionScoreIsReportScore(2, c.circulacao);
    OptionScoreIsReportScore(3, c.consciencia);
    OptionScoreIsReportScore(4, c.saturacao);
  }

  /** The risk bands of `classify`. */
  datatype Risk = VeryHigh | High | Moderate | Low

  function Classify(total: int): (r: Risk)
    ensures r == VeryHigh <==> total <= 3
    ensures r == High <==> 3 < total <= 6
    ensures r == Moderate <==> 6 < total <= 8
    ensures r == Low <==> 8 < total
  {
    if total <= 3 then VeryHigh
    else if total <= 6 then High
    else if total <= 8 then Moderate
    else Low
  }

  function RiskLabel(r: Risk): string {
    match r
    case VeryHigh => "Risco muito alto \U{2022} Cuidados intensivos"
    case High => "Risco alto \U{2022} Observação"
    case Moderate => "Risco moderado"
    case Low => "Baixo risco \U{2022} Apto(a) à alta da RPA"
  }

  function Severity(r: Risk): nat {
    match r
    case VeryHigh => 3
    case High => 2
    case Moderate => 1
    case Low => 0
  }

  /** A higher total never lands in a more severe band. */
  lemma ClassifyMonotone(t1: int, t2: int)
    requires t1 <= t2
    ensures Severity(Classify(t2)) <= Severity(Classify(t1))
  {
  }

  /** A fresh chart seeds every choice with 0 (`DefaultChoicesAreZero`),
      which totals 0, the most severe band (`DefaultIsVeryHigh`). */
  lemma DefaultChoicesAreZero()
    ensures Seed(AldreteDefault()) == Choices(0, 0, 0, 0, 0)
  {
    var a := AldreteDefault();
    assert forall i :: 0 <= i < |a| ==> a[i].1 == 0;
  }

  lemma DefaultIsVeryHigh()
    ensures PageTotal(Seed(AldreteDefault())) == 0 && Classify(PageTotal(Seed(AldreteDefault()))) == VeryHigh
  {
    DefaultChoicesAreZero();
    ZeroTotal(Seed(AldreteDefault()));
  }

  /** The total is 0 exactly when no criterion has its option 1 or 2
      chosen. */
  lemma ZeroTotal(c: Choices)
    ensures PageTotal(c) == 0 <==>
              !(1 <= c.atividade <= 2) && !(1 <= c.respiracao <= 2) && !(1 <= c.circulacao <= 2)
              && !(1 <= c.consciencia <= 2) && !(1 <= c.saturacao <= 2)
  {
    OptionScoreIsIndex(0, c.atividade);
    OptionScoreIsIndex(1, c.respiracao);
    OptionScoreIsIndex(2, c.circulacao);
    OptionScoreIsIndex(3, c.consciencia);
    OptionScoreIsIndex(4, c.saturacao);
  }

  // ------------------------------------------------------------------ drugs

  /** `DRUG_PRESETS`: each listed drug and its standard concentration. */
  const DrugPresets: Obj<string> :=
    [("Propofol", "10mg/ml"), ("Midazolam", "5mg/ml"), ("Fentanil", "50mcg/ml"), ("Morfina", "10mg/ml"),
     ("Atracúrio", "10mg/ml"), ("Rocurônio", "10mg/ml"), ("Sevoflurano", "100%"), ("Isoflurano", "100%"),
     ("Lidocaína", "2%"), ("Bupivacaína", "0,5%"), ("Epinefrina", "1mg/ml"), ("Atropina", "1mg/ml"),
     ("Neostigmina", "0,5mg/ml"), ("Sugamadex", "100mg/ml"), ("Cetamina", "50mg/ml")]

  datatype DrugForm = DrugForm(nome: string, outro: string, conc: string, qtd: string)

  function DrugFormDefault(): DrugForm {
    DrugForm("", "", "", "")
  }

  /** `onPickDrug(name)`: the name is taken and the free-text name cleared;
      the concentration becomes the preset for a listed drug and empty for
      "Outro" or an unlisted name. The quantity is kept. */
  function PickDrug(f: DrugForm, name: string): (r: DrugForm)
    ensures r.nome == name && r.outro == "" && r.qtd == f.qtd
    ensures name != "Outro" && HasKey(DrugPresets, name) ==> r.conc == Lookup(DrugPresets, name).value
    ensures name == "Outro" || !HasKey(DrugPresets, name) ==> r.conc == ""
  {
    if name == "Outro" then f.(nome := name, outro := "", conc := "")
    else f.(nome := name, outro := "", conc := Lookup(DrugPresets, name).GetOr(""))
  }

  /** "Outro" has no preset, so both branches read the preset table. */
  lemma PickDrugReadsPresets(f: DrugForm, name: string)
    ensures PickDrug(f, name).conc == Lookup(DrugPresets, name).GetOr("")
  {
    OutroHasNoPreset();
  }

  lemma OutroHasNoPreset()
    ensures !HasKey(DrugPresets, "Outro")
  {
    assert forall i :: 0 <= i < |DrugPresets| ==> DrugPresets[i].0 != "Outro";
  }

  /** The text inputs of the drug form (`onChangeDrug`). */
  datatype DrugInput = DrugOutro | DrugConc | DrugQtd

  function ChangeDrug(f: DrugForm, field: DrugInput, v: string): (r: DrugForm)
    ensures field == DrugOutro ==> r == f.(outro := v)
    ensures field == DrugConc ==> r == f.(conc := v)
    ensures field == DrugQtd ==> r == f.(qtd := v)
  {
    match field
    case DrugOutro => f.(outro := v)
    case DrugConc => f.(conc := v)
    case DrugQtd => f.(qtd := v)
  }

  /** The name a drug is recorded under: the trimmed free text for "Outro",
      the chosen name otherwise. */
  function DrugName(f: DrugForm): (n: string)
    ensures f.nome == "Outro" ==> n == Trim(f.outro)
    ensures f.nome != "Outro" ==> n == f.nome
  {
    if f.nome == "Outro" then Trim(f.outro) else f.nome
  }

  // -------------------------------------------------------------- materials

  /** An entry of `MATERIALS`, with its variants when it has any. */
  datatype MaterialKind = MaterialKind(nome: string, variantes: Option<seq<string>>)

  const Materials: seq<MaterialKind> :=
    [MaterialKind("Cateter nasal", None), MaterialKind("Látex oxigênio", None), MaterialKind("Equipo", None),
     MaterialKind("Polifix", None), MaterialKind("Torneirinha (multivias)", Some(["2 vias", "3 vias"])),
     MaterialKind("Cateter venoso (Abocath)", Some(["24G", "22G", "20G"])), MaterialKind("Esparadrapo", None),
     MaterialKind("Micropore", None), MaterialKind("Extensor de equipo", None),
     MaterialKind("Seringa", Some(["10 mL", "20 mL", "60 mL"])), MaterialKind("Guedel", Some(["#2", "#3", "#4"])),
     MaterialKind("Nasofaríngea", None), MaterialKind("Tubo endotraqueal", Some(["7.0", "7.5", "8.0"])),
     MaterialKind("Máscara laríngea", Some(["1", "2", "3", "4", "5"])), MaterialKind("Outro", None)]

  /** `list.find(x => x.nome === item)`: the first entry of that name. */
  function FindKind(list: seq<MaterialKind>, item: string): (r: Option<MaterialKind>)
    ensures r.Some? ==> r.value in list && r.value.nome == item
    ensures r.None? ==> forall m :: m in list ==> m.nome != item
  {
    if list == [] then None
    else if list[0].nome == item then Some(list[0])
    else FindKind(list[1..], item)
  }

  /** `variantesDisponiveis`: the variants of the chosen material, none for
      an unknown item or one without variants. */
  function Variantes(item: string): (vs: seq<string>)
    ensures FindKind(Materials, item).None? ==> vs == []
    ensures FindKind(Materials, item).Some? ==> vs == FindKind(Materials, item).value.variantes.GetOr([])
  {
    match FindKind(Materials, item)
    case None => []
    case Some(m) => m.variantes.GetOr([])
  }

  datatype MatForm = MatForm(item: string, variante: string, outro: string, qtd: string)

  function MatFormDefault(): MatForm {
    MatForm("", "", "", "")
  }

  /** Choosing a material clears the variant and the free text. */
  function PickMaterial(f: MatForm, item: string): (r: MatForm)
    ensures r == MatForm(item, "", "", f.qtd)
  {
    f.(item := item, variante := "", outro := "")
  }

  /** The other inputs of the material form; the quantity keeps only its
      digits. */
  datatype MatInput = MatVariante | MatOutro | MatQtd

  function ChangeMaterial(f: MatForm, field: MatInput, v: string): (r: MatForm)
    ensures field == MatVariante ==> r == f.(variante := v)
    ensures field == MatOutro ==> r == f.(outro := v)
    ensures field == MatQtd ==> r == f.(qtd := DigitsOnly(v)) && AllDigits(r.qtd)
  {
    match field
    case MatVariante => f.(variante := v)
    case MatOutro => f.(outro := v)
    case MatQtd => f.(qtd := DigitsOnly(v))
  }

  /** The name a material is recorded under. */
  function MaterialName(f: MatForm): (n: string) {
    var base := FindKind(Materials, f.item);
    if base.Some? && base.value.nome == "Outro" then Trim(f.outro) else f.item
  }

  /** Looking the item up only to compare its name amounts to comparing the
      item itself. */
  lemma MaterialNameIsOutroOrItem(f: MatForm)
    ensures f.item == "Outro" ==> MaterialName(f) == Trim(f.outro)
    ensures f.item != "Outro" ==> MaterialName(f) == f.item
  {
    if f.item == "Outro" {
      assert Materials[14].nome == "Outro";
    }
  }

  /** The row `addMaterial` records: the variant survives only for a
      material that has variants. */
  function MaterialRow(f: MatForm): (m: Material)
    ensures m.item == MaterialName(f) && m.qtd == f.qtd
    ensures |Variantes(f.item)| > 0 ==> m.variante == f.variante
    ensures |Variantes(f.item)| == 0 ==> m.variante == ""
  {
    Material(MaterialName(f), if |Variantes(f.item)| > 0 then f.variante else "", f.qtd)
  }

  /** The table cells: an empty concentration, variant or quantity shows
      the dash. */
  function OrDash(s: string): (r: string)
    ensures s == "" ==> r == PdfReport.Dash
    ensures s != "" ==> r == s
  {
    if s == "" then PdfReport.Dash else s
  }

  // ------------------------------------------------------------------- page

  /** The page's local state. */
  datatype RpaUi = RpaUi(drugForm: DrugForm, drugList: seq<Droga>, matForm: MatForm, matList: seq<Material>,
                         resumo: string, observ: string, destino: string, aldrete: Choices)

  /** The state the page mounts with, read from the chart. */
  function MountRpa(f: Ficha): RpaUi {
    RpaUi(DrugFormDefault(), f.rpa.drogas, MatFormDefault(), f.rpa.materiais.GetOr([]),
          f.rpa.resumo, f.rpa.observacoes, f.rpa.destino.GetOr(""), Seed(f.rpa.aldrete))
  }

  /** What the page shows agrees with the stored chart. */
  predicate InSync(ui: RpaUi, f: Ficha) {
    ui.drugList == f.rpa.drogas && ui.matList == f.rpa.materiais.GetOr([])
    && ui.resumo == f.rpa.resumo && ui.observ == f.rpa.observacoes && ui.destino == f.rpa.destino.GetOr("")
    && AldreteInSync(ui.aldrete, f.rpa.aldrete)
  }

  lemma MountInSync(f: Ficha)
    ensures InSync(MountRpa(f), f)
    ensures PageTotal(MountRpa(f).aldrete) == PdfReport.ReportAldreteTotal(f.rpa.aldrete)
  {
    SyncedTotalIsReportTotal(MountRpa(f).aldrete, f.rpa.aldrete);
  }

  /** A patch of `setRpa` naming only the materials. */
  function MaterialsPatch(next: seq<Material>): RpaPatch {
    RpaPatch(None, None, None, None, None, Some(next))
  }

  /** The page over the store. */
  class RpaPage {
    const store: FichaStorage.Store
    var ui: RpaUi

    constructor (st: FichaStorage.Store)
      ensures store == st && ui == MountRpa(st.Value())
      ensures InSync(ui, st.Value())
    {
      store := st;
      ui := MountRpa(st.Value());
      MountInSync(st.Value());
    }

    /** The total and the band the page shows. */
    function Total(): (t: int)
      reads this
      ensures 0 <= t <= 10
    {
      PageTotal(ui.aldrete)
    }

    /** While the page is in step with the store, it shows the total the
        report prints. */
    lemma TotalIsReportTotal()
      requires InSync(ui, store.Value())
      ensures Total() == PdfReport.ReportAldreteTotal(store.Value().rpa.aldrete)
    {
      SyncedTotalIsReportTotal(ui.aldrete, store.Value().rpa.aldrete);
    }

    method OnPickDrug(name: string)
      modifies this
      ensures ui == old(ui).(drugForm := PickDrug(old(ui.drugForm), name))
    {
      ui := ui.(drugForm := PickDrug(ui.drugForm, name));
    }

    method OnChangeDrug(field: DrugInput, v: string)
      modifies this
      ensures ui == old(ui).(drugForm := ChangeDrug(old(ui.drugForm), field, v))
    {
      ui := ui.(drugForm := ChangeDrug(ui.drugForm, field, v));
    }

    /** `addDrug()`: a drug without a name is refused; otherwise it is
        appended locally and in the store and the form is cleared. */
    method AddDrug()
      modifies this, store, store.initRpa
      ensures DrugName(old(ui.drugForm)) == "" ==> ui == old(ui) && store.Value() == old(store.Value())
      ensures DrugName(old(ui.drugForm)) != "" ==>
                var d := Droga(DrugName(old(ui.drugForm)), old(ui.drugForm.conc), old(ui.drugForm.qtd));
                ui == old(ui).(drugForm := DrugFormDefault(), drugList := old(ui.drugList) + [d])
                && store.Value() == FichaContext.AddRpaDroga(old(store.Value()), d)
      ensures old(InSync(ui, store.Value())) ==> InSync(ui, store.Value())
    {
      var nomeFinal := DrugName(ui.drugForm);
      if nomeFinal == "" {
        return;
      }
      var d := Droga(nomeFinal, ui.drugForm.conc, ui.drugForm.qtd);
      ui := ui.(drugForm := DrugFormDefault(), drugList := ui.drugList + [d]);
      store.AddRpaDroga(d);
    }

    /** `removeDrug(idx)`: the entry leaves the local list and the store. */
    method RemoveDrug(idx: int)
      modifies this, store, store.initRpa
      ensures ui == old(ui).(drugList := ExceptIndex(old(ui.drugList), idx))
      ensures store.Value() == FichaContext.RemoveRpaDroga(old(store.Value()), idx)
      ensures old(InSync(ui, store.Value())) ==> InSync(ui, store.Value())
    {
      ui := ui.(drugList := ExceptIndex(ui.drugList, idx));
      store.RemoveRpaDroga(idx);
    }

    method OnPickMaterial(item: string)
      modifies this
      ensures ui == old(ui).(matForm := PickMaterial(old(ui.matForm), item))
    {
      ui := ui.(matForm := PickMaterial(ui.matForm, item));
    }

    method OnChangeMaterial(field: MatInput, v: string)
      modifies this
      ensures ui == old(ui).(matForm := ChangeMaterial(old(ui.matForm), field, v))
    {
      ui := ui.(matForm := ChangeMaterial(ui.matForm, field, v));
    }

    /** `addMaterial()`: refused without a name or a quantity; otherwise the
        row is appended and the whole list written to the store. */
    method AddMaterial()
      modifies this, store
      ensures MaterialName(old(ui.matForm)) == "" || old(ui.matForm.qtd) == "" ==>
                ui == old(ui) && store.Value() == old(store.Value())
      ensures MaterialName(old(ui.matForm)) != "" && old(ui.matForm.qtd) != "" ==>
                ui == old(ui).(matForm := MatFormDefault(), matList := old(ui.matList) + [MaterialRow(old(ui.matForm))])
                && store.Value() == FichaContext.SetRpa(old(store.Value()), MaterialsPatch(ui.matList))
                && store.Value().rpa.materiais == Some(ui.matList)
      ensures old(InSync(ui, store.Value())) ==> InSync(ui, store.Value())
    {
      var nomeFinal := MaterialName(ui.matForm);
      if nomeFinal == "" || ui.matForm.qtd == "" {
        return;
      }
      var next := ui.matList + [MaterialRow(ui.matForm)];
      ui := ui.(matForm := MatFormDefault(), matList := next);
      store.SetRpa(MaterialsPatch(next));
    }

    /** `delMaterial(i)`: the row leaves the list and the list is written
        back. */
    method DelMaterial(i: int)
      modifies this, store
      ensures ui == old(ui).(matList := ExceptIndex(old(ui.matList), i))
      ensures store.Value() == FichaContext.SetRpa(old(store.Value()), MaterialsPatch(ui.matList))
      ensures store.Value().rpa.materiais == Some(ui.matList)
      ensures old(InSync(ui, store.Value())) ==> InSync(ui, store.Value())
    {
      var next := ExceptIndex(ui.matList, i);
      ui := ui.(matList := next);
      store.SetRpa(MaterialsPatch(next));
    }

    /** The three discharge fields: each edit is kept locally and patched
        into the store. */
    method SetResumo(v: string)
      modifies this, store
      ensures ui == old(ui).(resumo := v)
      ensures store.Value() == FichaContext.SetRpa(old(store.Value()), RpaPatch(None, Some(v), None, None, None, None))
      ensures old(InSync(ui, store.Value())) ==> InSync(ui, store.Value())
    {
      ui := ui.(resumo := v);
      store.SetRpa(RpaPatch(None, Some(v), None, None, None, None));
    }

    method SetObservacoes(v: string)
      modifies this, store
      ensures ui == old(ui).(observ := v)
      ensures store.Value() == FichaContext.SetRpa(old(store.Value()), RpaPatch(None, None, None, Some(v), None, None))
      ensures old(InSync(ui, store.Value())) ==> InSync(ui, store.Value())
    {
      ui := ui.(observ := v);
      store.SetRpa(RpaPatch(None, None, None, Some(v), None, None));
    }

    method SetDestino(v: string)
      modifies this, store
      ensures ui == old(ui).(destino := v)
      ensures store.Value() == FichaContext.SetRpa(old(store.Value()), RpaPatch(None, None, None, None, Some(v), None))
      ensures old(InSync(ui, store.Value())) ==> InSync(ui, store.Value())
    {
      ui := ui.(destino := v);
      store.SetRpa(RpaPatch(None, None, None, None, Some(v), None));
    }

    /** Choosing an Aldrete option: the local choice and the stored score
        change together, so the total stays the report's. */
    method SelectAldrete(key: string, idx: int)
      requires key in PdfReport.AldreteKeys
      modifies this, store, store.initRpa
      ensures ui == old(ui).(aldrete := Choose(old(ui.aldrete), key, idx))
      ensures store.Value() == old(store.Value()).(rpa := old(store.Value()).rpa.(aldrete := Set(old(store.Value()).rpa.aldrete, key, idx)))
      ensures Lookup(store.Value().rpa.aldrete, key) == Some(idx)
      ensures old(InSync(ui, store.Value())) ==>
                InSync(ui, store.Value()) && Total() == PdfReport.ReportAldreteTotal(store.Value().rpa.aldrete)
    {
      ghost var before := store.Value().rpa.aldrete;
      ghost var synced := InSync(ui, store.Value());
      ui := ui.(aldrete := Choose(ui.aldrete, key, idx));
      store.SetAldreteField(key, idx);
      if synced {
        ChooseKeepsSync(old(ui.aldrete), before, key, idx);
        SyncedTotalIsReportTotal(ui.aldrete, store.Value().rpa.aldrete);
      }
    }
  }
}

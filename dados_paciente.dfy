/** The patient-data page: the patient and surgery fields, the adverse-event
    box and its text, and the technique and monitor checkboxes. */
module DadosPaciente {
  import opened Js
  import opened JsObject
  import opened FichaSchema
  import FichaContext
  import FichaStorage
  import PdfReport

  /** The patient fields the page edits. */
  const PacKeys: seq<string> := ["nome", "asa", "idade", "peso", "altura", "urgencia", "alergias"]

  /** The surgery fields the page edits. */
  const CirKeys: seq<string> := ["hospital", "data", "inicio", "fim", "procedimento", "cirurgiao", "anestesista"]

  /** The techniques offered as checkboxes. */
  const Techniques: seq<string> :=
    ["Geral Balanceada", "Geral Venosa", "Geral Inalatória", "Sedação Consciente", "Sedação Profunda",
     "Raquianestesia", "Peridural", "Peridural Contínua", "Bloqueio Regional", "Bloqueio de Plexo",
     "Bloqueio Periférico", "Anestesia Combinada (Geral + Regional)", "Anestesia Combinada (Raqui + Peridural)",
     "Anestesia Local", "Anestesia Tópica"]

  /** The monitors offered as checkboxes. */
  const Monitors: seq<string> :=
    ["ECG", "Pressão Arterial", "Oximetria de Pulso", "Capnografia", "Temperatura", "BIS", "TOF",
     "Pressão Venosa Central"]

  /** `{ k: s.k || "" }` for each key: the local copy of a section, a
      missing field read as empty. */
  function SeedFields(o: Obj<string>, keys: seq<string>): (r: Obj<string>)
    ensures Keys(r) == keys
    ensures forall k :: k in keys ==> Lookup(r, k) == Some(Lookup(o, k).GetOr(""))
  {
    if keys == [] then []
    else [(keys[0], Lookup(o, keys[0]).GetOr(""))] + SeedFields(o, keys[1..])
  }

  /** Every local field shows what the store holds for it. */
  predicate FieldsInSync(local: Obj<string>, stored: Obj<string>) {
    forall k :: k in Keys(local) ==> Lookup(local, k) == Some(Lookup(stored, k).GetOr(""))
  }

  /** `setPacField` / `setCirField`: key `k` changes locally and in the
      store; the fields stay in step. */
  lemma SetFieldKeepsSync(local: Obj<string>, stored: Obj<string>, k: string, v: string)
    requires FieldsInSync(local, stored)
    ensures FieldsInSync(Set(local, k, v), Spread(stored, [(k, v)]))
  {
    SpreadOne(stored, k, v);
  }

  /** The page's local state: the two field records, the adverse-event box
      and its text, and which of the uncontrolled checkboxes are ticked. */
  datatype DadosUi = DadosUi(pac: Obj<string>, cir: Obj<string>, houve: bool, texto: string,
                             tecChecked: set<string>, monChecked: set<string>)

  function MountDados(f: Ficha): DadosUi {
    DadosUi(SeedFields(f.paciente, PacKeys), SeedFields(f.cirurgia, CirKeys),
            f.intercorrencias.houve, f.intercorrencias.texto,
            set t | t in Techniques && t in f.tecnicas,
            set m | m in Monitors && Lookup(f.monitorizacao, m).GetOr(false))
  }

  /** The stored adverse events agree with the box; the text agrees while
      the box is checked (unchecking clears only the stored text). */
  predicate InterInSync(ui: DadosUi, i: Intercorrencias) {
    i.houve == ui.houve && (ui.houve ==> i.texto == ui.texto)
  }

  /** Each offered checkbox is ticked exactly when the store says so. */
  predicate ChecksInSync(ui: DadosUi, f: Ficha) {
    (forall t :: t in Techniques ==> (t in ui.tecChecked <==> t in f.tecnicas))
    && (forall m :: m in Monitors ==> (m in ui.monChecked <==> Lookup(f.monitorizacao, m).GetOr(false)))
  }

  predicate InSync(ui: DadosUi, f: Ficha) {
    FieldsInSync(ui.pac, f.paciente) && FieldsInSync(ui.cir, f.cirurgia)
    && InterInSync(ui, f.intercorrencias) && ChecksInSync(ui, f)
  }

  lemma MountInSync(f: Ficha)
    ensures InSync(MountDados(f), f)
  {
  }

  /** While in step, the report prints the adverse events as the page shows
      them. */
  lemma ReportShowsPage(ui: DadosUi, i: Intercorrencias)
    requires InterInSync(ui, i)
    ensures PdfReport.InterRows(i) == PdfReport.InterRows(Intercorrencias(ui.houve, ui.texto))
  {
  }

  /** The patch the adverse-event box sends. */
  function HouvePatch(marcado: bool, texto: string): (p: InterPatch)
    ensures p.houve == Some(marcado)
    ensures marcado ==> p.texto == Some(texto)
    ensures !marcado ==> p.texto == Some("")
  {
    InterPatch(Some(marcado), Some(if marcado then texto else ""))
  }

  /** Flipping one monitor on the page and storing its new state keeps the
      checkboxes in step. */
  lemma FlipKeepsChecks(ui: DadosUi, f: Ficha, g: Ficha, m: string, checked: bool)
    requires ChecksInSync(ui, f) && g.tecnicas == f.tecnicas
    requires Lookup(g.monitorizacao, m) == Some(checked)
    requires forall k :: k != m ==> Lookup(g.monitorizacao, k) == Lookup(f.monitorizacao, k)
    ensures ChecksInSync(ui.(monChecked := if checked then ui.monChecked + {m} else ui.monChecked - {m}), g)
  {
  }

  /** The page over the store. */
  class DadosPage {
    const store: FichaStorage.Store
    var ui: DadosUi

    constructor (st: FichaStorage.Store)
      ensures store == st && ui == MountDados(old(st.Value()))
      ensures InSync(ui, old(st.Value()))
    {
      var f := st.Value();
      MountInSync(f);
      store := st;
      ui := MountDados(f);
    }

    method SetPacField(k: string, v: string)
      modifies this, store
      ensures ui == old(ui).(pac := Set(old(ui.pac), k, v))
      ensures store.Value() == FichaContext.SetPaciente(old(store.Value()), [(k, v)])
      ensures old(InSync(ui, store.Value())) ==> InSync(ui, store.Value())
    {
      ghost var before := store.Value();
      ui := ui.(pac := Set(ui.pac, k, v));
      store.SetPaciente([(k, v)]);
      if InSync(old(ui), before) {
        SetFieldKeepsSync(old(ui.pac), before.paciente, k, v);
      }
    }

    method SetCirField(k: string, v: string)
      modifies this, store
      ensures ui == old(ui).(cir := Set(old(ui.cir), k, v))
      ensures store.Value() == FichaContext.SetCirurgia(old(store.Value()), [(k, v)])
      ensures old(InSync(ui, store.Value())) ==> InSync(ui, store.Value())
    {
      ghost var before := store.Value();
      ui := ui.(cir := Set(ui.cir, k, v));
      store.SetCirurgia([(k, v)]);
      if InSync(old(ui), before) {
        SetFieldKeepsSync(old(ui.cir), before.cirurgia, k, v);
      }
    }

    /** Ticking the box stores the text being shown; unticking stores an
        empty text but keeps it on the page. */
    method OnHouveChange(marcado: bool)
      modifies this, store
      ensures ui == old(ui).(houve := marcado)
      ensures store.Value() == FichaContext.SetIntercorrencias(old(store.Value()), HouvePatch(marcado, old(ui.texto)))
      ensures store.Value().intercorrencias == Intercorrencias(marcado, if marcado then ui.texto else "")
      ensures old(InSync(ui, store.Value())) ==> InSync(ui, store.Value())
    {
      ui := ui.(houve := marcado);
      store.SetIntercorrencias(HouvePatch(marcado, ui.texto));
    }

    /** Typing stores only the text; the box is left as it is. */
    method OnTextoChange(v: string)
      modifies this, store
      ensures ui == old(ui).(texto := v)
      ensures store.Value() == FichaContext.SetIntercorrencias(old(store.Value()), InterPatch(None, Some(v)))
      ensures store.Value().intercorrencias == old(store.Value()).intercorrencias.(texto := v)
      ensures old(InSync(ui, store.Value())) ==> InSync(ui, store.Value())
    {
      ui := ui.(texto := v);
      store.SetIntercorrencias(InterPatch(None, Some(v)));
    }

    /** A technique checkbox flips and toggles the technique in the store. */
    method OnTechniqueChange(t: string)
      requires t in Techniques
      modifies this, store
      ensures ui == old(ui).(tecChecked := if t in old(ui.tecChecked) then old(ui.tecChecked) - {t}
                                          else old(ui.tecChecked) + {t})
      ensures store.Value() == old(store.Value()).(tecnicas := FichaStorage.ToggledTecnicas(old(store.Value()).tecnicas, t))
      ensures old(InSync(ui, store.Value())) ==> InSync(ui, store.Value())
    {
      ui := ui.(tecChecked := if t in ui.tecChecked then ui.tecChecked - {t} else ui.tecChecked + {t});
      store.ToggleTecnica(t);
    }

    /** A monitor checkbox flips and stores its new state. */
    method OnMonitorChange(m: string)
      requires m in Monitors
      modifies this, store
      ensures ui == old(ui).(monChecked := if m in old(ui.monChecked) then old(ui.monChecked) - {m}
                                          else old(ui.monChecked) + {m})
      ensures store.Value() == FichaContext.SetMonitorizacao(old(store.Value()), [(m, m in ui.monChecked)])
      ensures old(InSync(ui, store.Value())) ==> InSync(ui, store.Value())
    {
      ghost var before := store.Value();
      var checked := m !in ui.monChecked;
      ui := ui.(monChecked := if checked then ui.monChecked + {m} else ui.monChecked - {m});
      store.SetMonitor(m, Bool(checked));
      if InSync(old(ui), before) {
        FlipKeepsChecks(old(ui), before, store.Value(), m, checked);
      }
    }
  }

  /** Unticking and ticking the box again stores the text the page kept. */
  method UncheckThenCheck(p: DadosPage)
    modifies p, p.store
    ensures p.store.Value().intercorrencias == Intercorrencias(true, old(p.ui.texto))
    ensures p.ui == old(p.ui).(houve := true)
  {
    p.OnHouveChange(false);
    p.OnHouveChange(true);
  }
}

/** The chart document ("ficha"), its default value, the storage cell that
    holds it under the one storage key, and the top-level merge that both
    `read()` in the store and `load` in the context apply to what they find
    there. The store's `initial` and the context's `initialState` are the
    same literal; it is `Defaults()` here. */
module FichaSchema {
  import opened Js
  import opened JsObject

  /** The single storage key both the store and the context use. */
  const KEY: string := "ficha-anestesica:v1"

  datatype Intercorrencias = Intercorrencias(houve: bool, texto: string)

  /** A patch for `intercorrencias`: the keys it holds, with their values. */
  datatype InterPatch = InterPatch(houve: Option<bool>, texto: Option<string>)

  /** One vital-signs row: the time of day, the readings after `parseFloat`
      (`None` for a blank field) and the rhythm. */
  datatype Vital = Vital(hora: string, pas: Option<real>, pad: Option<real>, fc: Option<real>,
                         spo2: Option<real>, temp: Option<real>, etco2: Option<real>, ritmo: string)

  /** An administered drug, or one of the "other" drugs. */
  datatype Med = Med(nome: string, dose: string, unidade: string, via: string, horario: string)

  datatype Fluido = Fluido(tipo: string, fluido: string, volume: string, horario: string)

  /** A drug dispensed in the recovery room. */
  datatype Droga = Droga(nome: string, conc: string, qtd: string)

  /** A material used in the recovery room. */
  datatype Material = Material(item: string, variante: string, qtd: string)

  datatype Vitais = Vitais(registros: seq<Vital>)

  datatype Meds = Meds(administradas: seq<Med>, outras: seq<Med>, fluidos: seq<Fluido>,
                       equipamentos: Obj<JsValue>)

  /** The recovery-room section. `destino` and `materiais` are absent from
      the default and appear once a patch sets them. */
  datatype Rpa = Rpa(drogas: seq<Droga>, resumo: string, aldrete: Obj<int>, observacoes: string,
                     destino: Option<string>, materiais: Option<seq<Material>>)

  /** A patch for `rpa`: the keys it holds, with their values. */
  datatype RpaPatch = RpaPatch(drogas: Option<seq<Droga>>, resumo: Option<string>,
                               aldrete: Option<Obj<int>>, observacoes: Option<string>,
                               destino: Option<string>, materiais: Option<seq<Material>>)

  datatype Ficha = Ficha(paciente: Obj<string>, cirurgia: Obj<string>,
                         intercorrencias: Intercorrencias, tecnicas: seq<string>,
                         monitorizacao: Obj<bool>, vitais: Vitais, meds: Meds, rpa: Rpa)

  /** A parsed stored document: each top-level section may be missing (a
      document written by an older version, or by hand). */
  datatype StoredFicha = StoredFicha(paciente: Option<Obj<string>>, cirurgia: Option<Obj<string>>,
                                     intercorrencias: Option<Intercorrencias>,
                                     tecnicas: Option<seq<string>>,
                                     monitorizacao: Option<Obj<bool>>, vitais: Option<Vitais>,
                                     meds: Option<Meds>, rpa: Option<Rpa>)

  /** What `localStorage.getItem(KEY)` yields: nothing (or the empty string),
      text that `JSON.parse` rejects, or a parsed document. */
  datatype Cell = Absent | Corrupt | Stored(doc: StoredFicha)

  function PacienteDefault(): Obj<string> {
    [("nome", ""), ("idade", ""), ("peso", ""), ("altura", ""), ("asa", ""), ("urgencia", ""),
     ("alergias", "")]
  }

  function CirurgiaDefault(): Obj<string> {
    [("hospital", ""), ("data", ""), ("inicio", ""), ("fim", ""), ("procedimento", ""),
     ("cirurgiao", ""), ("anestesista", "")]
  }

  function MonitorizacaoDefault(): Obj<bool> {
    [("ECG", false), ("Pressão Arterial", false), ("Oximetria de Pulso", false),
     ("Capnografia", false), ("Temperatura", false), ("BIS", false), ("TOF", false),
     ("Pressão Venosa Central", false)]
  }

  /** The eight equipment keys of the default; the page and the report read
      the others with `|| ""` and `!!`. */
  function EquipamentosDefault(): Obj<JsValue> {
    [("tci", Bool(false)), ("bis", Bool(false)), ("tof", Bool(false)),
     ("multiparam", Bool(false)), ("oxigenio", Bool(false)), ("modelo", Str("")),
     ("outros", Str("")), ("ventilacao", Str("Espontânea"))]
  }

  function AldreteDefault(): Obj<int> {
    [("atividade", 0), ("respiracao", 0), ("circulacao", 0), ("consciencia", 0),
     ("saturacao", 0)]
  }

  function VitaisDefault(): Vitais {
    Vitais([])
  }

  function MedsDefault(): Meds {
    Meds([], [], [], EquipamentosDefault())
  }

  function RpaDefault(): Rpa {
    Rpa([], "", AldreteDefault(), "", None, None)
  }

  /** `initial` in the store, `initialState` in the context. */
  function Defaults(): (f: Ficha)
    ensures f.tecnicas == [] && f.vitais.registros == [] && !f.intercorrencias.houve
    ensures f.meds.administradas == [] && f.meds.outras == [] && f.meds.fluidos == []
    ensures f.rpa.drogas == [] && f.rpa.materiais.None? && f.rpa.destino.None?
    ensures forall i :: 0 <= i < |f.monitorizacao| ==> !f.monitorizacao[i].1
    ensures forall i :: 0 <= i < |f.rpa.aldrete| ==> f.rpa.aldrete[i].1 == 0
  {
    Ficha(PacienteDefault(), CirurgiaDefault(), Intercorrencias(false, ""), [],
          MonitorizacaoDefault(), VitaisDefault(), MedsDefault(), RpaDefault())
  }

  /** `{ ...base, ...doc }`: a section the document holds replaces the base
      section wholesale; a missing section is the base's. */
  function Merge(doc: StoredFicha, base: Ficha): Ficha {
    Ficha(doc.paciente.GetOr(base.paciente), doc.cirurgia.GetOr(base.cirurgia),
          doc.intercorrencias.GetOr(base.intercorrencias), doc.tecnicas.GetOr(base.tecnicas),
          doc.monitorizacao.GetOr(base.monitorizacao), doc.vitais.GetOr(base.vitais),
          doc.meds.GetOr(base.meds), doc.rpa.GetOr(base.rpa))
  }

  /** What the reading side gets from a cell, with `base` as the defaults:
      the base itself when the key is missing or its contents do not
      parse, the merge otherwise. */
  function ReadCell(c: Cell, base: Ficha): Ficha {
    match c
    case Absent => base
    case Corrupt => base
    case Stored(doc) => Merge(doc, base)
  }

  /** The document `JSON.stringify` persists for a whole chart: every
      section present. */
  function Full(f: Ficha): StoredFicha {
    StoredFicha(Some(f.paciente), Some(f.cirurgia), Some(f.intercorrencias), Some(f.tecnicas),
                Some(f.monitorizacao), Some(f.vitais), Some(f.meds), Some(f.rpa))
  }

  /** Whether the cell holds the `vitais` (`meds`, `rpa`) section, so that
      `read()` parses it afresh instead of handing out the default's. */
  predicate StoresVitais(c: Cell) {
    c.Stored? && c.doc.vitais.Some?
  }

  predicate StoresMeds(c: Cell) {
    c.Stored? && c.doc.meds.Some?
  }

  predicate StoresRpa(c: Cell) {
    c.Stored? && c.doc.rpa.Some?
  }

  /** What is written is what is read back, whatever the defaults. */
  lemma WrittenIsRead(f: Ficha, base: Ficha)
    ensures ReadCell(Stored(Full(f)), base) == f
  {
  }

  /** Sections the stored document holds are taken wholesale, the others
      fall back to the defaults; a missing or corrupt payload yields the
      defaults. */
  lemma ReadCellSections(c: Cell, base: Ficha)
    ensures !c.Stored? ==> ReadCell(c, base) == base
    ensures c.Stored? && c.doc.paciente.Some? ==> ReadCell(c, base).paciente == c.doc.paciente.value
    ensures c.Stored? && c.doc.paciente.None? ==> ReadCell(c, base).paciente == base.paciente
    ensures c.Stored? && c.doc.cirurgia.Some? ==> ReadCell(c, base).cirurgia == c.doc.cirurgia.value
    ensures c.Stored? && c.doc.cirurgia.None? ==> ReadCell(c, base).cirurgia == base.cirurgia
    ensures c.Stored? && c.doc.intercorrencias.Some? ==> ReadCell(c, base).intercorrencias == c.doc.intercorrencias.value
    ensures c.Stored? && c.doc.intercorrencias.None? ==> ReadCell(c, base).intercorrencias == base.intercorrencias
    ensures c.Stored? && c.doc.tecnicas.Some? ==> ReadCell(c, base).tecnicas == c.doc.tecnicas.value
    ensures c.Stored? && c.doc.tecnicas.None? ==> ReadCell(c, base).tecnicas == base.tecnicas
    ensures c.Stored? && c.doc.monitorizacao.Some? ==> ReadCell(c, base).monitorizacao == c.doc.monitorizacao.value
    ensures c.Stored? && c.doc.monitorizacao.None? ==> ReadCell(c, base).monitorizacao == base.monitorizacao
    ensures StoresVitais(c) ==> ReadCell(c, base).vitais == c.doc.vitais.value
    ensures c.Stored? && c.doc.vitais.None? ==> ReadCell(c, base).vitais == base.vitais
    ensures StoresMeds(c) ==> ReadCell(c, base).meds == c.doc.meds.value
    ensures c.Stored? && c.doc.meds.None? ==> ReadCell(c, base).meds == base.meds
    ensures StoresRpa(c) ==> ReadCell(c, base).rpa == c.doc.rpa.value
    ensures c.Stored? && c.doc.rpa.None? ==> ReadCell(c, base).rpa == base.rpa
  {
  }
}

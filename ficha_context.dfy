/** The chart provider's state transitions: each updater the provider hands
    to `setState` is a pure function from the current chart to the next,
    built by spreading the old sections and replacing one. `Load` is the
    provider's initial read of the storage key, `Persist` the effect that
    writes every new state back, `ResetAll` the removal of the key with a
    return to the defaults. */
module FichaContext {
  import opened Js
  import opened JsObject
  import opened FichaSchema

  /** `r` is `s` with `x` appended: one longer, `x` last, the rest unchanged. */
  predicate Appended<T(==)>(r: seq<T>, s: seq<T>, x: T) {
    |r| == |s| + 1 && r[..|s|] == s && r[|s|] == x
  }

  /** `r` is `s` without position `i`; an out-of-range `i` changes nothing. */
  predicate RemovedAt<T(==)>(r: seq<T>, s: seq<T>, i: int) {
    if 0 <= i < |s| then r == s[..i] + s[i + 1..] else r == s
  }

  /** The provider's initial state: the stored document merged over the
      defaults at the top level, or the defaults when the key is missing or
      its contents do not parse. */
  function Load(c: Cell): (r: Ficha)
    ensures !c.Stored? ==> r == Defaults()
    ensures c.Stored? && c.doc.paciente.Some? ==> r.paciente == c.doc.paciente.value
    ensures c.Stored? && c.doc.paciente.None? ==> r.paciente == Defaults().paciente
    ensures c.Stored? && c.doc.cirurgia.Some? ==> r.cirurgia == c.doc.cirurgia.value
    ensures c.Stored? && c.doc.cirurgia.None? ==> r.cirurgia == Defaults().cirurgia
    ensures c.Stored? && c.doc.intercorrencias.Some? ==> r.intercorrencias == c.doc.intercorrencias.value
    ensures c.Stored? && c.doc.intercorrencias.None? ==> r.intercorrencias == Defaults().intercorrencias
    ensures c.Stored? && c.doc.tecnicas.Some? ==> r.tecnicas == c.doc.tecnicas.value
    ensures c.Stored? && c.doc.tecnicas.None? ==> r.tecnicas == Defaults().tecnicas
    ensures c.Stored? && c.doc.monitorizacao.Some? ==> r.monitorizacao == c.doc.monitorizacao.value
    ensures c.Stored? && c.doc.monitorizacao.None? ==> r.monitorizacao == Defaults().monitorizacao
    ensures StoresVitais(c) ==> r.vitais == c.doc.vitais.value
    ensures c.Stored? && c.doc.vitais.None? ==> r.vitais == Defaults().vitais
    ensures StoresMeds(c) ==> r.meds == c.doc.meds.value
    ensures c.Stored? && c.doc.meds.None? ==> r.meds == Defaults().meds
    ensures StoresRpa(c) ==> r.rpa == c.doc.rpa.value
    ensures c.Stored? && c.doc.rpa.None? ==> r.rpa == Defaults().rpa
  {
    ReadCell(c, Defaults())
  }

  /** The effect that runs after every change of state. */
  function Persist(s: Ficha): Cell {
    Stored(Full(s))
  }

  /** Whatever state is persisted is the state the next load yields. */
  lemma LoadPersisted(s: Ficha)
    ensures Load(Persist(s)) == s
  {
  }

  function SetPaciente(s: Ficha, patch: Obj<string>): (r: Ficha)
    ensures r.(paciente := s.paciente) == s
    ensures IsSpreadOf(r.paciente, s.paciente, patch)
  {
    SpreadIsSpreadOf(s.paciente, patch);
    s.(paciente := Spread(s.paciente, patch))
  }

  function SetCirurgia(s: Ficha, patch: Obj<string>): (r: Ficha)
    ensures r.(cirurgia := s.cirurgia) == s
    ensures IsSpreadOf(r.cirurgia, s.cirurgia, patch)
  {
    SpreadIsSpreadOf(s.cirurgia, patch);
    s.(cirurgia := Spread(s.cirurgia, patch))
  }

  /** `{ ...intercorrencias, ...patch }`. */
  function SpreadInter(i: Intercorrencias, patch: InterPatch): (r: Intercorrencias)
    ensures r.houve == if patch.houve.Some? then patch.houve.value else i.houve
    ensures r.texto == if patch.texto.Some? then patch.texto.value else i.texto
  {
    Intercorrencias(patch.houve.GetOr(i.houve), patch.texto.GetOr(i.texto))
  }

  function SetIntercorrencias(s: Ficha, patch: InterPatch): (r: Ficha)
    ensures r.(intercorrencias := s.intercorrencias) == s
    ensures r.intercorrencias == SpreadInter(s.intercorrencias, patch)
  {
    s.(intercorrencias := SpreadInter(s.intercorrencias, patch))
  }

  /** `Array.isArray(arr) ? arr : s.tecnicas`, with `None` for a value that
      is not an array. */
  function SetTecnicas(s: Ficha, arr: Option<seq<string>>): (r: Ficha)
    ensures arr.None? ==> r == s
    ensures arr.Some? ==> r.tecnicas == arr.value && r.(tecnicas := s.tecnicas) == s
  {
    s.(tecnicas := if arr.Some? then arr.value else s.tecnicas)
  }

  function SetMonitorizacao(s: Ficha, patch: Obj<bool>): (r: Ficha)
    ensures r.(monitorizacao := s.monitorizacao) == s
    ensures IsSpreadOf(r.monitorizacao, s.monitorizacao, patch)
  {
    SpreadIsSpreadOf(s.monitorizacao, patch);
    s.(monitorizacao := Spread(s.monitorizacao, patch))
  }

  function AddVital(s: Ficha, v: Vital): (r: Ficha)
    ensures r.(vitais := s.vitais) == s
    ensures Appended(r.vitais.registros, s.vitais.registros, v)
  {
    s.(vitais := s.vitais.(registros := s.vitais.registros + [v]))
  }

  function RemoveVital(s: Ficha, i: int): (r: Ficha)
    ensures r.(vitais := s.vitais) == s
    ensures RemovedAt(r.vitais.registros, s.vitais.registros, i)
  {
    s.(vitais := s.vitais.(registros := ExceptIndex(s.vitais.registros, i)))
  }

  function AddMedAdministrada(s: Ficha, m: Med): (r: Ficha)
    ensures r.(meds := s.meds) == s && r.meds.(administradas := s.meds.administradas) == s.meds
    ensures Appended(r.meds.administradas, s.meds.administradas, m)
  {
    s.(meds := s.meds.(administradas := s.meds.administradas + [m]))
  }

  function RemoveMedAdministrada(s: Ficha, i: int): (r: Ficha)
    ensures r.(meds := s.meds) == s && r.meds.(administradas := s.meds.administradas) == s.meds
    ensures RemovedAt(r.meds.administradas, s.meds.administradas, i)
  {
    s.(meds := s.meds.(administradas := ExceptIndex(s.meds.administradas, i)))
  }

  function AddOutraMed(s: Ficha, m: Med): (r: Ficha)
    ensures r.(meds := s.meds) == s && r.meds.(outras := s.meds.outras) == s.meds
    ensures Appended(r.meds.outras, s.meds.outras, m)
  {
    s.(meds := s.meds.(outras := s.meds.outras + [m]))
  }

  function RemoveOutraMed(s: Ficha, i: int): (r: Ficha)
    ensures r.(meds := s.meds) == s && r.meds.(outras := s.meds.outras) == s.meds
    ensures RemovedAt(r.meds.outras, s.meds.outras, i)
  {
    s.(meds := s.meds.(outras := ExceptIndex(s.meds.outras, i)))
  }

  function AddFluido(s: Ficha, f: Fluido): (r: Ficha)
    ensures r.(meds := s.meds) == s && r.meds.(fluidos := s.meds.fluidos) == s.meds
    ensures Appended(r.meds.fluidos, s.meds.fluidos, f)
  {
    s.(meds := s.meds.(fluidos := s.meds.fluidos + [f]))
  }

  function RemoveFluido(s: Ficha, i: int): (r: Ficha)
    ensures r.(meds := s.meds) == s && r.meds.(fluidos := s.meds.fluidos) == s.meds
    ensures RemovedAt(r.meds.fluidos, s.meds.fluidos, i)
  {
    s.(meds := s.meds.(fluidos := ExceptIndex(s.meds.fluidos, i)))
  }

  function SetEquipamentos(s: Ficha, patch: Obj<JsValue>): (r: Ficha)
    ensures r.(meds := s.meds) == s && r.meds.(equipamentos := s.meds.equipamentos) == s.meds
    ensures IsSpreadOf(r.meds.equipamentos, s.meds.equipamentos, patch)
  {
    SpreadIsSpreadOf(s.meds.equipamentos, patch);
    s.(meds := s.meds.(equipamentos := Spread(s.meds.equipamentos, patch)))
  }

  function AddRpaDroga(s: Ficha, d: Droga): (r: Ficha)
    ensures r.(rpa := s.rpa) == s && r.rpa.(drogas := s.rpa.drogas) == s.rpa
    ensures Appended(r.rpa.drogas, s.rpa.drogas, d)
  {
    s.(rpa := s.rpa.(drogas := s.rpa.drogas + [d]))
  }

  function RemoveRpaDroga(s: Ficha, i: int): (r: Ficha)
    ensures r.(rpa := s.rpa) == s && r.rpa.(drogas := s.rpa.drogas) == s.rpa
    ensures RemovedAt(r.rpa.drogas, s.rpa.drogas, i)
  {
    s.(rpa := s.rpa.(drogas := ExceptIndex(s.rpa.drogas, i)))
  }

  /** `{ ...rpa, ...patch }`. */
  function SpreadRpa(a: Rpa, patch: RpaPatch): (r: Rpa)
    ensures r.drogas == if patch.drogas.Some? then patch.drogas.value else a.drogas
    ensures r.resumo == if patch.resumo.Some? then patch.resumo.value else a.resumo
    ensures r.aldrete == if patch.aldrete.Some? then patch.aldrete.value else a.aldrete
    ensures r.observacoes == if patch.observacoes.Some? then patch.observacoes.value else a.observacoes
    ensures r.destino == if patch.destino.Some? then patch.destino else a.destino
    ensures r.materiais == if patch.materiais.Some? then patch.materiais else a.materiais
  {
    Rpa(patch.drogas.GetOr(a.drogas), patch.resumo.GetOr(a.resumo), patch.aldrete.GetOr(a.aldrete),
        patch.observacoes.GetOr(a.observacoes),
        if patch.destino.Some? then patch.destino else a.destino,
        if patch.materiais.Some? then patch.materiais else a.materiais)
  }

  function SetRpa(s: Ficha, patch: RpaPatch): (r: Ficha)
    ensures r.(rpa := s.rpa) == s
    ensures r.rpa == SpreadRpa(s.rpa, patch)
  {
    s.(rpa := SpreadRpa(s.rpa, patch))
  }

  function ResetPaciente(s: Ficha): (r: Ficha)
    ensures r.paciente == Defaults().paciente && r.(paciente := s.paciente) == s
  {
    s.(paciente := Defaults().paciente)
  }

  function ResetCirurgia(s: Ficha): (r: Ficha)
    ensures r.cirurgia == Defaults().cirurgia && r.(cirurgia := s.cirurgia) == s
  {
    s.(cirurgia := Defaults().cirurgia)
  }

  /** Restores the adverse events and also empties the techniques. */
  function ResetIntercorrencias(s: Ficha): (r: Ficha)
    ensures r.intercorrencias == Intercorrencias(false, "") && r.tecnicas == []
    ensures r.(intercorrencias := s.intercorrencias, tecnicas := s.tecnicas) == s
  {
    s.(intercorrencias := Defaults().intercorrencias, tecnicas := [])
  }

  function ResetMonitorizacao(s: Ficha): (r: Ficha)
    ensures r.monitorizacao == Defaults().monitorizacao && r.(monitorizacao := s.monitorizacao) == s
  {
    s.(monitorizacao := Defaults().monitorizacao)
  }

  function ResetVitais(s: Ficha): (r: Ficha)
    ensures r.vitais.registros == [] && r.(vitais := s.vitais) == s
  {
    s.(vitais := Defaults().vitais)
  }

  function ResetMeds(s: Ficha): (r: Ficha)
    ensures r.meds == Defaults().meds && r.(meds := s.meds) == s
  {
    s.(meds := Defaults().meds)
  }

  function ResetRpa(s: Ficha): (r: Ficha)
    ensures r.rpa == Defaults().rpa && r.(rpa := s.rpa) == s
  {
    s.(rpa := Defaults().rpa)
  }

  /** `resetAll`: the key is removed and the state becomes the defaults.
      Whether or not the persist effect then writes the defaults back, a
      later load yields the defaults. */
  function ResetAll(): (r: (Ficha, Cell))
    ensures r.0 == Defaults() && Load(r.1) == Defaults() && Load(Persist(r.0)) == Defaults()
  {
    (Defaults(), Absent)
  }

  /** A section reset discards every edit of that section made before it. */
  lemma ResetUndoesEdits(s: Ficha, pac: Obj<string>, v: Vital, m: Med, d: Droga, eq: Obj<JsValue>,
                         ip: InterPatch, arr: Option<seq<string>>)
    ensures ResetPaciente(SetPaciente(s, pac)) == ResetPaciente(s)
    ensures ResetVitais(AddVital(s, v)) == ResetVitais(s)
    ensures ResetMeds(SetEquipamentos(AddMedAdministrada(s, m), eq)) == ResetMeds(s)
    ensures ResetRpa(AddRpaDroga(s, d)) == ResetRpa(s)
    ensures ResetIntercorrencias(SetTecnicas(SetIntercorrencias(s, ip), arr)) == ResetIntercorrencias(s)
  {
  }

  /** Removing the entry just added restores the list, in every section. */
  lemma {:induction false} RemoveUndoesAdd(s: Ficha, v: Vital, m: Med, f: Fluido, d: Droga)
    ensures RemoveVital(AddVital(s, v), |s.vitais.registros|) == s
    ensures RemoveMedAdministrada(AddMedAdministrada(s, m), |s.meds.administradas|) == s
    ensures RemoveOutraMed(AddOutraMed(s, m), |s.meds.outras|) == s
    ensures RemoveFluido(AddFluido(s, f), |s.meds.fluidos|) == s
    ensures RemoveRpaDroga(AddRpaDroga(s, d), |s.rpa.drogas|) == s
  {
    assert (s.vitais.registros + [v])[..|s.vitais.registros|] == s.vitais.registros;
    assert (s.meds.administradas + [m])[..|s.meds.administradas|] == s.meds.administradas;
    assert (s.meds.outras + [m])[..|s.meds.outras|] == s.meds.outras;
    assert (s.meds.fluidos + [f])[..|s.meds.fluidos|] == s.meds.fluidos;
    assert (s.rpa.drogas + [d])[..|s.rpa.drogas|] == s.rpa.drogas;
  }

  /** The vitals scenario of two additions and a removal of the first: one
      entry is left, the second. */
  lemma TwoVitalsThenRemoveFirst(s: Ficha, a: Vital, b: Vital)
    requires s.vitais.registros == []
    ensures RemoveVital(AddVital(AddVital(s, a), b), 0).vitais.registros == [b]
  {
  }
}

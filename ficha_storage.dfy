/** The record store: a read-merge-write gateway over the one storage key.
    Every operation reads the chart (`read()`), changes one part of it and
    writes the whole chart back (`write()`).

    `read()` copies `initial` at the top level only, so whenever the cell
    lacks a section the copy shares that section's object with `initial`.
    The three sections that operations update in place (`vitais`, `meds`,
    `rpa`) are therefore objects here, and `initial` holds three of them; an
    in-place update made while the section fell back to the default changes
    `initial` itself. The other sections are only ever replaced whole, so
    values model them exactly. */
module FichaStorage {
  import opened Js
  import opened JsObject
  import opened FichaSchema
  import FichaContext

  class VitaisObj {
    var registros: seq<Vital>

    constructor (v: Vitais)
      ensures Value() == v
    {
      registros := v.registros;
    }

    function Value(): Vitais
      reads this
    {
      Vitais(registros)
    }
  }

  class MedsObj {
    var administradas: seq<Med>
    var outras: seq<Med>
    var fluidos: seq<Fluido>
    var equipamentos: Obj<JsValue>

    constructor (m: Meds)
      ensures Value() == m
    {
      administradas, outras, fluidos, equipamentos := m.administradas, m.outras, m.fluidos, m.equipamentos;
    }

    function Value(): Meds
      reads this
    {
      Meds(administradas, outras, fluidos, equipamentos)
    }
  }

  class RpaObj {
    var drogas: seq<Droga>
    var resumo: string
    var aldrete: Obj<int>
    var observacoes: string
    var destino: Option<string>
    var materiais: Option<seq<Material>>

    constructor (r: Rpa)
      ensures Value() == r
    {
      drogas, resumo, aldrete, observacoes, destino, materiais :=
        r.drogas, r.resumo, r.aldrete, r.observacoes, r.destino, r.materiais;
    }

    function Value(): Rpa
      reads this
    {
      Rpa(drogas, resumo, aldrete, observacoes, destino, materiais)
    }
  }

  /** A top-level copy, as `read()` returns it: its own top-level fields,
      and references to the section objects. */
  datatype Doc = Doc(paciente: Obj<string>, cirurgia: Obj<string>,
                     intercorrencias: Intercorrencias, tecnicas: seq<string>,
                     monitorizacao: Obj<bool>, vitais: VitaisObj, meds: MedsObj, rpa: RpaObj)

  /** The chart a copy denotes, read through its section objects. */
  function DocValue(d: Doc): Ficha
    reads d.vitais, d.meds, d.rpa
  {
    Ficha(d.paciente, d.cirurgia, d.intercorrencias, d.tecnicas, d.monitorizacao,
          d.vitais.Value(), d.meds.Value(), d.rpa.Value())
  }

  /** `toggleTecnica`'s new list: every occurrence removed when the name is
      present, the name appended when it is not. */
  function ToggledTecnicas(ts: seq<string>, nome: string): (r: seq<string>)
    ensures nome in ts ==> nome !in r && forall t :: t != nome ==> (t in r <==> t in ts)
    ensures nome !in ts ==> FichaContext.Appended(r, ts, nome)
  {
    if nome in ts then RemoveAll(ts, nome) else ts + [nome]
  }

  /** Toggling never introduces a duplicate. */
  lemma ToggleKeepsNoDuplicates(ts: seq<string>, nome: string)
    requires NoDuplicates(ts)
    ensures NoDuplicates(ToggledTecnicas(ts, nome))
  {
    if nome in ts {
      RemoveAllKeepsNoDuplicates(ts, nome);
    }
  }

  /** Toggling twice restores the membership of every name; when the name
      was absent the list itself comes back. */
  lemma ToggleTwice(ts: seq<string>, nome: string)
    requires NoDuplicates(ts)
    ensures forall t :: t in ToggledTecnicas(ToggledTecnicas(ts, nome), nome) <==> t in ts
    ensures nome !in ts ==> ToggledTecnicas(ToggledTecnicas(ts, nome), nome) == ts
  {
    var once := ToggledTecnicas(ts, nome);
    if nome !in ts {
      assert nome in once;
      assert RemoveAll(ts + [nome], nome) == ts by {
        RemoveAllAppended(ts, nome);
      }
    }
  }

  lemma {:induction false} RemoveAllAppended(ts: seq<string>, nome: string)
    requires nome !in ts
    ensures RemoveAll(ts + [nome], nome) == ts
  {
    if ts == [] {
      assert [nome][1..] == [];
    } else {
      assert (ts + [nome])[1..] == ts[1..] + [nome];
      RemoveAllAppended(ts[1..], nome);
    }
  }

  /** The store over the storage cell. `initVitais`, `initMeds` and
      `initRpa` are the section objects of `initial`. */
  class Store {
    var cell: Cell
    const initVitais: VitaisObj
    const initMeds: MedsObj
    const initRpa: RpaObj

    /** The page loads with whatever the cell holds; `initial` is pristine. */
    constructor (c: Cell)
      ensures cell == c && Pristine()
      ensures fresh(initVitais) && fresh(initMeds) && fresh(initRpa)
    {
      cell := c;
      initVitais := new VitaisObj(VitaisDefault());
      initMeds := new MedsObj(MedsDefault());
      initRpa := new RpaObj(RpaDefault());
    }

    /** `initial` itself: the fixed top level and the shared section objects. */
    function InitialDoc(): Doc {
      var d := Defaults();
      Doc(d.paciente, d.cirurgia, d.intercorrencias, d.tecnicas, d.monitorizacao,
          initVitais, initMeds, initRpa)
    }

    /** The chart `initial` currently denotes. */
    function InitialValue(): Ficha
      reads initVitais, initMeds, initRpa
    {
      DocValue(InitialDoc())
    }

    /** No in-place update has reached `initial`. */
    predicate Pristine()
      reads initVitais, initMeds, initRpa
    {
      InitialValue() == Defaults()
    }

    /** The chart that `getAll()` returns now. */
    function Value(): Ficha
      reads this, initVitais, initMeds, initRpa
    {
      ReadCell(cell, InitialValue())
    }

    /** `read()`: a top-level copy of `initial` merged with what the cell
        holds. A section the cell holds is a fresh object; a missing one
        is `initial`'s own. */
    method Read() returns (d: Doc)
      ensures DocValue(d) == Value()
      ensures if StoresVitais(cell) then fresh(d.vitais) else d.vitais == initVitais
      ensures if StoresMeds(cell) then fresh(d.meds) else d.meds == initMeds
      ensures if StoresRpa(cell) then fresh(d.rpa) else d.rpa == initRpa
    {
      match cell
      case Absent =>
        d := InitialDoc();
      case Corrupt =>
        d := InitialDoc();
      case Stored(doc) =>
        var v := initVitais;
        if doc.vitais.Some? {
          v := new VitaisObj(doc.vitais.value);
        }
        var m := initMeds;
        if doc.meds.Some? {
          m := new MedsObj(doc.meds.value);
        }
        var r := initRpa;
        if doc.rpa.Some? {
          r := new RpaObj(doc.rpa.value);
        }
        var base := Defaults();
        d := Doc(doc.paciente.GetOr(base.paciente), doc.cirurgia.GetOr(base.cirurgia),
                 doc.intercorrencias.GetOr(base.intercorrencias), doc.tecnicas.GetOr(base.tecnicas),
                 doc.monitorizacao.GetOr(base.monitorizacao), v, m, r);
    }

    /** `write(data)`: the whole chart is serialised into the cell. */
    method Write(d: Doc)
      modifies this
      ensures cell == Stored(Full(DocValue(d)))
      ensures Value() == DocValue(d)
    {
      cell := Stored(Full(DocValue(d)));
    }

    /** `getAll()`. */
    method GetAll() returns (f: Ficha)
      ensures f == Value()
      ensures !cell.Stored? ==> f == InitialValue()
      ensures cell.Stored? ==> f == Merge(cell.doc, InitialValue())
    {
      var d := Read();
      f := DocValue(d);
    }

    /** `resetAll()`: writes a top-level copy of `initial`, so the chart
        becomes whatever `initial` denotes now; that is the defaults only
        when no in-place update has reached `initial`. */
    method ResetAll()
      modifies this
      ensures Value() == old(InitialValue())
      ensures old(Pristine()) ==> Value() == Defaults()
      ensures cell == Stored(Full(InitialValue()))
    {
      Write(InitialDoc());
    }

    method SetPaciente(patch: Obj<string>)
      modifies this
      ensures Value() == FichaContext.SetPaciente(old(Value()), patch)
      ensures cell == Stored(Full(Value()))
    {
      var s := Read();
      s := s.(paciente := Spread(s.paciente, patch));
      Write(s);
    }

    method SetCirurgia(patch: Obj<string>)
      modifies this
      ensures Value() == FichaContext.SetCirurgia(old(Value()), patch)
      ensures cell == Stored(Full(Value()))
    {
      var s := Read();
      s := s.(cirurgia := Spread(s.cirurgia, patch));
      Write(s);
    }

    method SetIntercorrencias(patch: InterPatch)
      modifies this
      ensures Value() == FichaContext.SetIntercorrencias(old(Value()), patch)
      ensures cell == Stored(Full(Value()))
    {
      var s := Read();
      s := s.(intercorrencias := FichaContext.SpreadInter(s.intercorrencias, patch));
      Write(s);
    }

    method ToggleTecnica(nome: string)
      modifies this
      ensures Value() == old(Value()).(tecnicas := ToggledTecnicas(old(Value()).tecnicas, nome))
      ensures cell == Stored(Full(Value()))
    {
      var s := Read();
      var has := nome in s.tecnicas;
      s := s.(tecnicas := if has then RemoveAll(s.tecnicas, nome) else s.tecnicas + [nome]);
      Write(s);
    }

    /** `setMonitor(nome, val)`: stores `!!val` under `nome`. */
    method SetMonitor(nome: string, val: JsValue)
      modifies this
      ensures Value() == FichaContext.SetMonitorizacao(old(Value()), [(nome, Truthy(val))])
      ensures cell == Stored(Full(Value()))
      ensures Lookup(Value().monitorizacao, nome) == Some(Truthy(val))
      ensures forall k :: k != nome ==> Lookup(Value().monitorizacao, k) == Lookup(old(Value()).monitorizacao, k)
    {
      var s := Read();
      s := s.(monitorizacao := Set(s.monitorizacao, nome, Truthy(val)));
      assert Spread(old(Value()).monitorizacao, [(nome, Truthy(val))]) == s.monitorizacao;
      Write(s);
    }

    method AddVital(v: Vital)
      modifies this, initVitais
      ensures Value() == FichaContext.AddVital(old(Value()), v)
      ensures cell == Stored(Full(Value()))
      ensures !old(StoresVitais(cell)) ==> initVitais.registros == old(initVitais.registros) + [v]
      ensures old(StoresVitais(cell)) ==> unchanged(initVitais)
    {
      var s := Read();
      s.vitais.registros := s.vitais.registros + [v];
      Write(s);
    }

    method AddMedAdministrada(m: Med)
      modifies this, initMeds
      ensures Value() == FichaContext.AddMedAdministrada(old(Value()), m)
      ensures cell == Stored(Full(Value()))
      ensures !old(StoresMeds(cell)) ==> initMeds.Value() == Value().meds
      ensures old(StoresMeds(cell)) ==> unchanged(initMeds)
    {
      var s := Read();
      s.meds.administradas := s.meds.administradas + [m];
      Write(s);
    }

    method RemoveMedAdministrada(i: int)
      modifies this, initMeds
      ensures Value() == FichaContext.RemoveMedAdministrada(old(Value()), i)
      ensures cell == Stored(Full(Value()))
      ensures !old(StoresMeds(cell)) ==> initMeds.Value() == Value().meds
      ensures old(StoresMeds(cell)) ==> unchanged(initMeds)
    {
      var s := Read();
      s.meds.administradas := ExceptIndex(s.meds.administradas, i);
      Write(s);
    }

    method AddOutraMed(m: Med)
      modifies this, initMeds
      ensures Value() == FichaContext.AddOutraMed(old(Value()), m)
      ensures cell == Stored(Full(Value()))
      ensures !old(StoresMeds(cell)) ==> initMeds.Value() == Value().meds
      ensures old(StoresMeds(cell)) ==> unchanged(initMeds)
    {
      var s := Read();
      s.meds.outras := s.meds.outras + [m];
      Write(s);
    }

    method RemoveOutraMed(i: int)
      modifies this, initMeds
      ensures Value() == FichaContext.RemoveOutraMed(old(Value()), i)
      ensures cell == Stored(Full(Value()))
      ensures !old(StoresMeds(cell)) ==> initMeds.Value() == Value().meds
      ensures old(StoresMeds(cell)) ==> unchanged(initMeds)
    {
      var s := Read();
      s.meds.outras := ExceptIndex(s.meds.outras, i);
      Write(s);
    }

    method AddFluido(f: Fluido)
      modifies this, initMeds
      ensures Value() == FichaContext.AddFluido(old(Value()), f)
      ensures cell == Stored(Full(Value()))
      ensures !old(StoresMeds(cell)) ==> initMeds.Value() == Value().meds
      ensures old(StoresMeds(cell)) ==> unchanged(initMeds)
    {
      var s := Read();
      s.meds.fluidos := s.meds.fluidos + [f];
      Write(s);
    }

    method RemoveFluido(i: int)
      modifies this, initMeds
      ensures Value() == FichaContext.RemoveFluido(old(Value()), i)
      ensures cell == Stored(Full(Value()))
      ensures !old(StoresMeds(cell)) ==> initMeds.Value() == Value().meds
      ensures old(StoresMeds(cell)) ==> unchanged(initMeds)
    {
      var s := Read();
      s.meds.fluidos := ExceptIndex(s.meds.fluidos, i);
      Write(s);
    }

    method SetEquip(patch: Obj<JsValue>)
      modifies this, initMeds
      ensures Value() == FichaContext.SetEquipamentos(old(Value()), patch)
      ensures cell == Stored(Full(Value()))
      ensures !old(StoresMeds(cell)) ==> initMeds.Value() == Value().meds
      ensures old(StoresMeds(cell)) ==> unchanged(initMeds)
    {
      var s := Read();
      s.meds.equipamentos := Spread(s.meds.equipamentos, patch);
      Write(s);
    }

    method AddRpaDroga(d: Droga)
      modifies this, initRpa
      ensures Value() == FichaContext.AddRpaDroga(old(Value()), d)
      ensures cell == Stored(Full(Value()))
      ensures !old(StoresRpa(cell)) ==> initRpa.Value() == Value().rpa
      ensures old(StoresRpa(cell)) ==> unchanged(initRpa)
    {
      var s := Read();
      s.rpa.drogas := s.rpa.drogas + [d];
      Write(s);
    }

    method RemoveRpaDroga(i: int)
      modifies this, initRpa
      ensures Value() == FichaContext.RemoveRpaDroga(old(Value()), i)
      ensures cell == Stored(Full(Value()))
      ensures !old(StoresRpa(cell)) ==> initRpa.Value() == Value().rpa
      ensures old(StoresRpa(cell)) ==> unchanged(initRpa)
    {
      var s := Read();
      s.rpa.drogas := ExceptIndex(s.rpa.drogas, i);
      Write(s);
    }

    /** `setRpa(patch)` replaces the section object with a new one, so it
        never reaches `initial`. */
    method SetRpa(patch: RpaPatch)
      modifies this
      ensures Value() == FichaContext.SetRpa(old(Value()), patch)
      ensures cell == Stored(Full(Value()))
    {
      var s := Read();
      var r := new RpaObj(FichaContext.SpreadRpa(s.rpa.Value(), patch));
      s := s.(rpa := r);
      Write(s);
    }

    /** `setAldreteField(field, idx)`: only `rpa.aldrete[field]` changes. */
    method SetAldreteField(field: string, idx: int)
      modifies this, initRpa
      ensures Value() == old(Value()).(rpa := old(Value()).rpa.(aldrete := Set(old(Value()).rpa.aldrete, field, idx)))
      ensures cell == Stored(Full(Value()))
      ensures Lookup(Value().rpa.aldrete, field) == Some(idx)
      ensures forall k :: k != field ==> Lookup(Value().rpa.aldrete, k) == Lookup(old(Value()).rpa.aldrete, k)
      ensures !old(StoresRpa(cell)) ==> initRpa.Value() == Value().rpa
      ensures old(StoresRpa(cell)) ==> unchanged(initRpa)
    {
      var s := Read();
      s.rpa.aldrete := Set(s.rpa.aldrete, field, idx);
      Write(s);
    }
  }

  /** On a page whose store holds no vitals yet, an added vital survives
      `resetAll()`: the reset writes `initial`, which the addition changed. */
  method ResetAfterAddKeepsVital(v: Vital) returns (after: Ficha)
    ensures after.vitais.registros == [v]
    ensures after != Defaults()
  {
    var st := new Store(Absent);
    st.AddVital(v);
    st.ResetAll();
    after := st.GetAll();
  }

  /** When the cell already holds every nested section, updates never reach
      `initial`, and `resetAll()` restores the defaults. */
  method ResetRestoresDefaultsWhenStored(doc: StoredFicha, v: Vital, d: Droga)
    returns (after: Ficha)
    requires doc.vitais.Some? && doc.meds.Some? && doc.rpa.Some?
    ensures after == Defaults()
  {
    var st := new Store(Stored(doc));
    st.AddVital(v);
    assert st.Pristine();
    st.AddRpaDroga(d);
    assert st.Pristine();
    st.SetEquip([("tci", Bool(true))]);
    assert st.Pristine();
    st.ResetAll();
    after := st.GetAll();
  }
}

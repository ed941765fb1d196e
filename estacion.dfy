/** A weather station: an ordered list of sensors it owns, which it can
    extend, prune by sensor id, filter to the active ones and read. The
    coordinates and altitude are data with no behaviour and are not
    modelled; no code changes a station's id, name or active flag after
    creation, so those are constants. */
module Estaciones {
  import opened Wrappers
  import opened Seqs
  import opened Text
  import opened Lecturas
  import opened Sensores

  /** `[s for s in sensores if s.id != sensorId]` */
  function SinSensor(sensores: seq<Sensor>, sensorId: int): (r: seq<Sensor>)
    ensures forall i :: 0 <= i < |r| ==> r[i].id != sensorId && r[i] in sensores
    ensures forall i :: 0 <= i < |sensores| && sensores[i].id != sensorId ==> sensores[i] in r
    ensures |r| < |sensores| <==> exists i :: 0 <= i < |sensores| && sensores[i].id == sensorId
    ensures (forall i :: 0 <= i < |sensores| ==> sensores[i].id != sensorId) ==> r == sensores
  {
    FilterKeepsAll(sensores, (s: Sensor) => s.id != sensorId);
    Filter(sensores, (s: Sensor) => s.id != sensorId)
  }

  /** `[s for s in sensores if s.esta_activo()]` */
  function SensoresActivos(sensores: seq<Sensor>): (r: seq<Sensor>)
    ensures forall i :: 0 <= i < |r| ==> r[i].estado && r[i] in sensores
    ensures forall i :: 0 <= i < |sensores| && sensores[i].estado ==> sensores[i] in r
  {
    Filter(sensores, EstaActivo)
  }

  /** Removing by id keeps the survivors in their original order: it works
      on each part of a list separately. */
  lemma SinSensorConservaOrden(a: seq<Sensor>, b: seq<Sensor>, sensorId: int)
    ensures SinSensor(a + b, sensorId) == SinSensor(a, sensorId) + SinSensor(b, sensorId)
  {
    FilterAppend(a, b, (s: Sensor) => s.id != sensorId);
  }

  /** Removing the same id twice is removing it once. */
  lemma SinSensorIdempotente(sensores: seq<Sensor>, sensorId: int)
    ensures SinSensor(SinSensor(sensores, sensorId), sensorId) == SinSensor(sensores, sensorId)
  {
    FilterIdempotent(sensores, (s: Sensor) => s.id != sensorId);
  }

  /** The active sensors of a list are those of its parts, in order. */
  lemma SensoresActivosConservaOrden(a: seq<Sensor>, b: seq<Sensor>)
    ensures SensoresActivos(a + b) == SensoresActivos(a) + SensoresActivos(b)
  {
    FilterAppend(a, b, EstaActivo);
  }

  /** `lecturas` holds one reading per sensor of `sensores`, in the same
      order, each carrying that sensor's id and a value the sensor can
      produce and accepts. */
  ghost predicate LecturasDe(sensores: seq<Sensor>, lecturas: seq<Lectura>)
  {
    |lecturas| == |sensores| &&
    forall i :: 0 <= i < |sensores| ==>
      lecturas[i].sensorId == sensores[i].id &&
      ValidarRango(sensores[i], lecturas[i].valor) && Sorteable(sensores[i], lecturas[i].valor)
  }

  lemma LecturasDeConcat(a: seq<Sensor>, la: seq<Lectura>, b: seq<Sensor>, lb: seq<Lectura>)
    requires LecturasDe(a, la) && LecturasDe(b, lb)
    ensures LecturasDe(a + b, la + lb)
  {
    forall i | 0 <= i < |a + b|
      ensures (la + lb)[i].sensorId == (a + b)[i].id
      ensures ValidarRango((a + b)[i], (la + lb)[i].valor) && Sorteable((a + b)[i], (la + lb)[i].valor)
    {
      if i >= |a| {
        assert (a + b)[i] == b[i - |a|] && (la + lb)[i] == lb[i - |a|];
      }
    }
  }

  lemma LecturaUnica(s: Sensor, l: Lectura)
    requires l.sensorId == s.id && ValidarRango(s, l.valor) && Sorteable(s, l.valor)
    ensures LecturasDe([s], [l])
  {
  }

  /** Whether every sensor in the list can be read. */
  ghost predicate TodosLegibles(sensores: seq<Sensor>)
  {
    forall i :: 0 <= i < |sensores| ==> Legible(sensores[i])
  }

  lemma TodosLegiblesConcat(a: seq<Sensor>, b: seq<Sensor>)
    ensures TodosLegibles(a + b) <==> TodosLegibles(a) && TodosLegibles(b)
  {
    if TodosLegibles(a) && TodosLegibles(b) {
      forall i | 0 <= i < |a + b| ensures Legible((a + b)[i]) {
        if i >= |a| {
          assert (a + b)[i] == b[i - |a|];
        }
      }
    }
    if TodosLegibles(a + b) {
      forall i | 0 <= i < |a| ensures Legible(a[i]) {
        assert a[i] == (a + b)[i];
      }
      forall i | 0 <= i < |b| ensures Legible(b[i]) {
        assert b[i] == (a + b)[i + |a|];
      }
    }
  }

  function Booleano(b: bool): string
  {
    if b then "True" else "False"
  }

  class EstacionMeteorologica {
    const id: int
    const nombre: string
    const activa: bool
    var sensores: seq<Sensor>

    constructor (id: int, nombre: string, activa: bool, sensores: seq<Sensor>)
      ensures this.id == id && this.nombre == nombre && this.activa == activa
      ensures this.sensores == sensores
    {
      this.id := id;
      this.nombre := nombre;
      this.activa := activa;
      this.sensores := sensores;
    }

    /** `agregar_sensor`: appends, with no check for a repeated id. */
    method AgregarSensor(s: Sensor)
      modifies this
      ensures sensores == old(sensores) + [s]
    {
      sensores := sensores + [s];
    }

    /** `remover_sensor`: keeps every sensor whose id differs. */
    method RemoverSensor(sensorId: int)
      modifies this
      ensures sensores == SinSensor(old(sensores), sensorId)
    {
      sensores := SinSensor(sensores, sensorId);
    }

    function ObtenerSensoresActivos(): seq<Sensor>
      reads this
    {
      SensoresActivos(sensores)
    }

    /** `obtener_todas_lecturas`: reads every active sensor in order; the
        first `ValueError` aborts the loop and propagates. */
    method ObtenerTodasLecturas() returns (r: Result<seq<Lectura>, string>)
      ensures r.Ok? <==> TodosLegibles(ObtenerSensoresActivos())
      ensures r.Ok? ==> LecturasDe(ObtenerSensoresActivos(), r.value)
      ensures r.Err? ==> r.error == "Temperatura fuera de rango"
    {
      var activos := ObtenerSensoresActivos();
      var lecturas: seq<Lectura> := [];
      var k := 0;
      while k < |activos|
        invariant 0 <= k <= |activos|
        invariant LecturasDe(activos[..k], lecturas)
        invariant TodosLegibles(activos[..k])
      {
        var l := ObtenerLectura(activos[k]);
        if l.Err? {
          assert !Legible(activos[k]);
          r := Err(l.error);
          return;
        }
        LecturaUnica(activos[k], l.value);
        LecturasDeConcat(activos[..k], lecturas, [activos[k]], [l.value]);
        assert activos[..k + 1] == activos[..k] + [activos[k]];
        lecturas := lecturas + [l.value];
        k := k + 1;
      }
      assert activos[..k] == activos;
      r := Ok(lecturas);
    }

    /** `__str__` */
    function Descripcion(): string
      reads this
    {
      "Estacion(id=" + IntToString(id) + ", nombre='" + nombre + "', activa=" + Booleano(activa)
      + ", sensores=" + NatToString(|sensores|) + ")"
    }
  }

  /** The text form reports the number of sensors: what follows its last `=`,
      up to the closing parenthesis, reads back as that number. */
  lemma DescripcionReportaSensores(e: EstacionMeteorologica)
    ensures var t := e.Descripcion();
      RFind(t, '=').Some? && RFind(t, '=').value + 1 <= |t| - 1 &&
      ParseInt(t[RFind(t, '=').value + 1..|t| - 1]) == Some(|e.sensores|)
  {
    var n := NatToString(|e.sensores|);
    var head := "Estacion(id=" + IntToString(e.id) + ", nombre='" + e.nombre + "', activa="
      + Booleano(e.activa) + ", sensores";
    var t := e.Descripcion();
    assert t == head + ['='] + (n + ")");
    RFindLast(head, n + ")", '=');
    assert t[|head| + 1..|t| - 1] == n;
    ParseIntToString(|e.sensores|);
  }

  /** The station of the module's own test: one sensor added, read, then
      removed by id. */
  method PruebaEstacion() returns (conUno: nat, lecturas: Result<seq<Lectura>, string>, alFinal: nat)
    ensures conUno == 1 && alFinal == 0
    ensures lecturas.Ok? && |lecturas.value| >= 1
  {
    var e := new EstacionMeteorologica(1, "E1", true, []);
    var s := Sensor(10, "temperatura", 1, true, Temperatura("°C", 1.0, 0.0));
    e.AgregarSensor(s);
    conUno := |e.sensores|;
    lecturas := e.ObtenerTodasLecturas();
    e.RemoverSensor(10);
    alFinal := |e.sensores|;
  }
}

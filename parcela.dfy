/** A farm plot: an ordered list of the weather stations placed on it, which
    it can extend, prune by station id, filter to the active ones, and read
    as one list of readings. The geographic fields, soil and water sources
    are data with no behaviour and are not modelled. Stations are shared
    objects: a station changed after it was added is seen changed here. */
module Parcelas {
  import opened Wrappers
  import opened Seqs
  import opened Text
  import opened Lecturas
  import opened Sensores
  import opened Estaciones

  /** `[e for e in estaciones if e.id != estacionId]` */
  function SinEstacion(estaciones: seq<EstacionMeteorologica>, estacionId: int): (r: seq<EstacionMeteorologica>)
    ensures forall i :: 0 <= i < |r| ==> r[i].id != estacionId && r[i] in estaciones
    ensures forall i :: 0 <= i < |estaciones| && estaciones[i].id != estacionId ==> estaciones[i] in r
    ensures |r| < |estaciones| <==> exists i :: 0 <= i < |estaciones| && estaciones[i].id == estacionId
    ensures (forall i :: 0 <= i < |estaciones| ==> estaciones[i].id != estacionId) ==> r == estaciones
  {
    FilterKeepsAll(estaciones, (e: EstacionMeteorologica) => e.id != estacionId);
    Filter(estaciones, (e: EstacionMeteorologica) => e.id != estacionId)
  }

  predicate EstaActiva(e: EstacionMeteorologica)
  {
    e.activa
  }

  /** `[e for e in estaciones if e.activa]` */
  function EstacionesActivas(estaciones: seq<EstacionMeteorologica>): (r: seq<EstacionMeteorologica>)
    ensures forall i :: 0 <= i < |r| ==> r[i].activa && r[i] in estaciones
    ensures forall i :: 0 <= i < |estaciones| && estaciones[i].activa ==> estaciones[i] in r
  {
    Filter(estaciones, EstaActiva)
  }

  lemma SinEstacionConservaOrden(a: seq<EstacionMeteorologica>, b: seq<EstacionMeteorologica>, estacionId: int)
    ensures SinEstacion(a + b, estacionId) == SinEstacion(a, estacionId) + SinEstacion(b, estacionId)
  {
    FilterAppend(a, b, (e: EstacionMeteorologica) => e.id != estacionId);
  }

  lemma EstacionesActivasConservaOrden(a: seq<EstacionMeteorologica>, b: seq<EstacionMeteorologica>)
    ensures EstacionesActivas(a + b) == EstacionesActivas(a) + EstacionesActivas(b)
  {
    FilterAppend(a, b, EstaActiva);
  }

  /** The sensors a plot's weather data comes from: the active sensors of its
      active stations, station by station, in list order. */
  ghost function SensoresClima(estaciones: seq<EstacionMeteorologica>): seq<Sensor>
    reads estaciones
  {
    if estaciones == [] then []
    else
      var propios := if estaciones[0].activa then SensoresActivos(estaciones[0].sensores) else [];
      propios + SensoresClima(estaciones[1..])
  }

  /** The weather-data sensors of a list are those of its parts, in order. */
  lemma {:induction false} SensoresClimaConcat(a: seq<EstacionMeteorologica>, b: seq<EstacionMeteorologica>)
    ensures SensoresClima(a + b) == SensoresClima(a) + SensoresClima(b)
  {
    if a != [] {
      assert (a + b)[1..] == a[1..] + b;
      SensoresClimaConcat(a[1..], b);
    } else {
      assert a + b == b;
    }
  }

  /** Inactive stations contribute nothing: the weather-data sensors of a
      list are those of its active stations. */
  lemma {:induction false} SensoresClimaSoloActivas(estaciones: seq<EstacionMeteorologica>)
    ensures SensoresClima(estaciones) == SensoresClima(EstacionesActivas(estaciones))
  {
    if estaciones != [] {
      var e := estaciones[0];
      SensoresClimaSoloActivas(estaciones[1..]);
      assert estaciones == [e] + estaciones[1..];
      EstacionesActivasConservaOrden([e], estaciones[1..]);
      SensoresClimaConcat(EstacionesActivas([e]), EstacionesActivas(estaciones[1..]));
      if e.activa {
        assert EstacionesActivas([e]) == [e];
      } else {
        assert EstacionesActivas([e]) == [];
      }
      assert SensoresClima([e]) == (if e.activa then SensoresActivos(e.sensores) else []) by {
        assert [e][1..] == [];
      }
    }
  }

  /** The number of active sensors over a list of stations. */
  ghost function ConteoSensoresActivos(estaciones: seq<EstacionMeteorologica>): nat
    reads estaciones
  {
    if estaciones == [] then 0
    else |SensoresActivos(estaciones[0].sensores)| + ConteoSensoresActivos(estaciones[1..])
  }

  /** A plot yields as many readings as its active stations have active
      sensors in total. */
  lemma {:induction false} SensoresClimaCuenta(estaciones: seq<EstacionMeteorologica>)
    ensures |SensoresClima(estaciones)| == ConteoSensoresActivos(EstacionesActivas(estaciones))
  {
    SensoresClimaSoloActivas(estaciones);
    TodasActivasCuenta(EstacionesActivas(estaciones));
  }

  lemma {:induction false} TodasActivasCuenta(estaciones: seq<EstacionMeteorologica>)
    requires forall i :: 0 <= i < |estaciones| ==> estaciones[i].activa
    ensures |SensoresClima(estaciones)| == ConteoSensoresActivos(estaciones)
  {
    if estaciones != [] {
      TodasActivasCuenta(estaciones[1..]);
    }
  }

  /** One more station of the loop contributes its own active sensors. */
  lemma PasoClima(activas: seq<EstacionMeteorologica>, k: nat)
    requires k < |activas| && activas[k].activa
    ensures SensoresClima([activas[k]]) == activas[k].ObtenerSensoresActivos()
    ensures SensoresClima(activas[..k + 1]) == SensoresClima(activas[..k]) + SensoresClima([activas[k]])
  {
    assert activas[..k + 1] == activas[..k] + [activas[k]];
    SensoresClimaConcat(activas[..k], [activas[k]]);
    assert [activas[k]][1..] == [];
  }

  /** An unreadable sensor in a prefix is an unreadable sensor of the list. */
  lemma FallaClima(activas: seq<EstacionMeteorologica>, k: nat)
    requires k <= |activas|
    requires !TodosLegibles(SensoresClima(activas[..k]))
    ensures !TodosLegibles(SensoresClima(activas))
  {
    assert activas == activas[..k] + activas[k..];
    SensoresClimaConcat(activas[..k], activas[k..]);
    TodosLegiblesConcat(SensoresClima(activas[..k]), SensoresClima(activas[k..]));
  }

  /** The loop of `obtener_datos_clima` across one station read in full. */
  lemma ClimaAvanza(activas: seq<EstacionMeteorologica>, k: nat, lecturas: seq<Lectura>, nuevas: seq<Lectura>)
    requires k < |activas| && activas[k].activa
    requires LecturasDe(SensoresClima(activas[..k]), lecturas) && TodosLegibles(SensoresClima(activas[..k]))
    requires LecturasDe(activas[k].ObtenerSensoresActivos(), nuevas)
    requires TodosLegibles(activas[k].ObtenerSensoresActivos())
    ensures LecturasDe(SensoresClima(activas[..k + 1]), lecturas + nuevas)
    ensures TodosLegibles(SensoresClima(activas[..k + 1]))
  {
    PasoClima(activas, k);
    LecturasDeConcat(SensoresClima(activas[..k]), lecturas, SensoresClima([activas[k]]), nuevas);
    TodosLegiblesConcat(SensoresClima(activas[..k]), SensoresClima([activas[k]]));
  }

  /** A station that cannot be read makes the whole list unreadable. */
  lemma ClimaFalla(activas: seq<EstacionMeteorologica>, k: nat)
    requires k < |activas| && activas[k].activa
    requires !TodosLegibles(activas[k].ObtenerSensoresActivos())
    ensures !TodosLegibles(SensoresClima(activas))
  {
    PasoClima(activas, k);
    TodosLegiblesConcat(SensoresClima(activas[..k]), SensoresClima([activas[k]]));
    FallaClima(activas, k + 1);
  }

  class Parcela {
    const id: int
    const nombre: string
    const descripcion: string
    const propietarioId: int
    var estaciones: seq<EstacionMeteorologica>

    /** A plot with the given stations (`[]` is the field's default). */
    constructor (id: int, nombre: string, descripcion: string, propietarioId: int,
                 estaciones: seq<EstacionMeteorologica>)
      ensures this.id == id && this.nombre == nombre
      ensures this.descripcion == descripcion && this.propietarioId == propietarioId
      ensures this.estaciones == estaciones
    {
      this.id := id;
      this.nombre := nombre;
      this.descripcion := descripcion;
      this.propietarioId := propietarioId;
      this.estaciones := estaciones;
    }

    /** `agregar_estacion`: appends the station object itself. */
    method AgregarEstacion(e: EstacionMeteorologica)
      modifies this
      ensures estaciones == old(estaciones) + [e]
    {
      estaciones := estaciones + [e];
    }

    /** `remover_estacion`: keeps every station whose id differs. */
    method RemoverEstacion(estacionId: int)
      modifies this
      ensures estaciones == SinEstacion(old(estaciones), estacionId)
    {
      estaciones := SinEstacion(estaciones, estacionId);
    }

    function ObtenerEstacionesActivas(): seq<EstacionMeteorologica>
      reads this
    {
      EstacionesActivas(estaciones)
    }

    /** `obtener_datos_clima`: the readings of each active station, one
        station after the other; a `ValueError` from any of them propagates. */
    method ObtenerDatosClima() returns (r: Result<seq<Lectura>, string>)
      ensures r.Ok? <==> TodosLegibles(SensoresClima(estaciones))
      ensures r.Ok? ==> LecturasDe(SensoresClima(estaciones), r.value)
      ensures r.Err? ==> r.error == "Temperatura fuera de rango"
    {
      var activas := ObtenerEstacionesActivas();
      SensoresClimaSoloActivas(estaciones);
      var lecturas: seq<Lectura> := [];
      var k := 0;
      while k < |activas|
        invariant 0 <= k <= |activas|
        invariant LecturasDe(SensoresClima(activas[..k]), lecturas)
        invariant TodosLegibles(SensoresClima(activas[..k]))
      {
        var l := activas[k].ObtenerTodasLecturas();
        if l.Err? {
          ClimaFalla(activas, k);
          r := Err(l.error);
          return;
        }
        ClimaAvanza(activas, k, lecturas, l.value);
        lecturas := lecturas + l.value;
        k := k + 1;
      }
      assert activas[..k] == activas;
      r := Ok(lecturas);
    }

    /** `__str__` */
    function Descripcion(): string
      reads this
    {
      "Parcela(id=" + IntToString(id) + ", nombre='" + nombre + "', estaciones="
      + NatToString(|estaciones|) + ")"
    }
  }

  /** The text form reports the number of stations: what follows its last
      `=`, up to the closing parenthesis, reads back as that number. */
  lemma DescripcionReportaEstaciones(p: Parcela)
    ensures var t := p.Descripcion();
      RFind(t, '=').Some? && RFind(t, '=').value + 1 <= |t| - 1 &&
      ParseInt(t[RFind(t, '=').value + 1..|t| - 1]) == Some(|p.estaciones|)
  {
    var n := NatToString(|p.estaciones|);
    var head := "Parcela(id=" + IntToString(p.id) + ", nombre='" + p.nombre + "', estaciones";
    var t := p.Descripcion();
    assert t == head + ['='] + (n + ")");
    RFindLast(head, n + ")", '=');
    assert t[|head| + 1..|t| - 1] == n;
    ParseIntToString(|p.estaciones|);
  }

  /** The plot of the module's own test: one active station with one active
      sensor gives at least one reading, and removing the station by id
      leaves none. */
  method PruebaParcela() returns (lecturas: Result<seq<Lectura>, string>, alFinal: nat)
    ensures lecturas.Ok? && |lecturas.value| >= 1
    ensures alFinal == 0
  {
    var p := new Parcela(1, "P1", "x", 1, []);
    var e := new EstacionMeteorologica(1, "E1", true, []);
    var s := Sensor(10, "temperatura", 1, true, Temperatura("°C", 1.0, 0.0));
    e.AgregarSensor(s);
    p.AgregarEstacion(e);
    assert SensoresClima(p.estaciones) == [s] by {
      assert p.estaciones == [e] && p.estaciones[1..] == [];
      assert SensoresActivos([s]) == [s];
    }
    lecturas := p.ObtenerDatosClima();
    p.RemoverEstacion(1);
    alFinal := |p.estaciones|;
  }
}

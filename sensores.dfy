/** The sensor hierarchy of the weather station: a common part (id, type
    label, owning station, on/off state) and one variant per concrete sensor
    class, each with its own range check and its own way of producing a
    reading. `random.uniform` is a nondeterministic choice in its interval;
    rounding the value and reading the clock are not modelled. */
module Sensores {
  import opened Wrappers
  import opened Lecturas

  /** A calendar date, kept only as data. */
  datatype Fecha = Fecha(anio: int, mes: int, dia: int)

  datatype Clase =
    | Temperatura(unidad: string, rangoMax: real, rangoMin: real)
    | Humedad(tipoHumedad: string, fechaCalibracion: Fecha)
    | Precipitacion(tipoMedidor: string, areaCaptacion: real)

  datatype Sensor = Sensor(id: int, tipo: string, estacionId: int, estado: bool, clase: Clase)

  /** The fixed bounds of a humidity sensor, in percent. */
  const HumedadMin: real := 0.0
  const HumedadMax: real := 100.0

  /** The interval the humidity and precipitation sensors draw from. */
  const HumedadSorteoMin: real := 30.0
  const HumedadSorteoMax: real := 90.0
  const PrecipitacionSorteoMax: real := 15.0

  predicate EstaActivo(s: Sensor)
  {
    s.estado
  }

  /** The range check of each sensor class. */
  predicate ValidarRango(s: Sensor, valor: real)
  {
    match s.clase
    case Temperatura(_, rangoMax, rangoMin) => rangoMin <= valor <= rangoMax
    case Humedad(_, _) => HumedadMin <= valor <= HumedadMax
    case Precipitacion(_, _) => valor >= 0.0
  }

  /** The values `random.uniform(a, b)` can return: the closed interval
      between `a` and `b`, in whichever order they are given. */
  predicate EnUniforme(v: real, a: real, b: real)
  {
    if a <= b then a <= v <= b else b <= v <= a
  }

  /** The values a sensor's reading can carry: the draw, clamped at zero for
      precipitation. */
  predicate Sorteable(s: Sensor, v: real)
  {
    match s.clase
    case Temperatura(_, rangoMax, rangoMin) => EnUniforme(v, rangoMin, rangoMax)
    case Humedad(_, _) => EnUniforme(v, HumedadSorteoMin, HumedadSorteoMax)
    case Precipitacion(_, _) => 0.0 <= v <= PrecipitacionSorteoMax
  }

  /** Whether reading the sensor can succeed: only a temperature sensor whose
      minimum exceeds its maximum always fails. */
  predicate Legible(s: Sensor)
  {
    !(s.clase.Temperatura? && s.clase.rangoMin > s.clase.rangoMax)
  }

  /** The message of the `ValueError` a failed reading raises. */
  function MensajeFueraDeRango(s: Sensor): string
  {
    match s.clase
    case Temperatura(_, _, _) => "Temperatura fuera de rango"
    case Humedad(_, _) => "Humedad fuera de rango"
    case Precipitacion(_, _) => "Precipitación fuera de rango"
  }

  /** `random.uniform(a, b)` */
  method Uniforme(a: real, b: real) returns (v: real)
    ensures EnUniforme(v, a, b)
  {
    assert EnUniforme(a, a, b);
    v :| EnUniforme(v, a, b);
  }

  /** `obtener_lectura`: draw a value, check it against the sensor's range
      and either raise `ValueError` or return a reading of this sensor. */
  method ObtenerLectura(s: Sensor) returns (r: Result<Lectura, string>)
    ensures r.Ok? <==> Legible(s)
    ensures r.Ok? ==> r.value.sensorId == s.id
    ensures r.Ok? ==> ValidarRango(s, r.value.valor) && Sorteable(s, r.value.valor)
    ensures r.Err? ==> r.error == MensajeFueraDeRango(s)
  {
    var valor: real;
    match s.clase {
      case Temperatura(_, rangoMax, rangoMin) =>
        valor := Uniforme(rangoMin, rangoMax);
      case Humedad(_, _) =>
        valor := Uniforme(HumedadSorteoMin, HumedadSorteoMax);
      case Precipitacion(_, _) =>
        var sorteo := Uniforme(0.0, PrecipitacionSorteoMax);
        valor := if 0.0 >= sorteo then 0.0 else sorteo;
    }
    if !ValidarRango(s, valor) {
      r := Err(MensajeFueraDeRango(s));
    } else {
      var instante: nat :| true;
      r := Ok(Lectura(valor, instante, s.id));
    }
  }

  /** A temperature sensor whose minimum exceeds its maximum rejects every
      value, so its reading always raises. */
  lemma TemperaturaInvertidaRechazaTodo(s: Sensor, v: real)
    requires s.clase.Temperatura? && s.clase.rangoMin > s.clase.rangoMax
    ensures !ValidarRango(s, v) && !Legible(s)
  {
  }

  /** Every value a sensor can draw passes its own range check exactly when
      the sensor is readable. */
  lemma {:induction false} SorteoValido(s: Sensor, v: real)
    requires Sorteable(s, v)
    ensures ValidarRango(s, v) <==> Legible(s)
  {
    match s.clase {
      case Temperatura(_, rangoMax, rangoMin) =>
      case Humedad(_, _) =>
      case Precipitacion(_, _) =>
    }
  }

  /** The three sensors of the module's own test, and what it asserts of
      their readings. */
  method PruebaSensores() returns (lt: Result<Lectura, string>, lh: Result<Lectura, string>, lp: Result<Lectura, string>)
    ensures lt.Ok? && -5.0 <= lt.value.valor <= 5.0
    ensures lh.Ok? && 0.0 <= lh.value.valor <= 100.0
    ensures lp.Ok? && lp.value.valor >= 0.0
  {
    var t := Sensor(1, "temperatura", 1, true, Temperatura("°C", 5.0, -5.0));
    var h := Sensor(2, "humedad", 1, true, Humedad("relativa", Fecha(2025, 1, 1)));
    var p := Sensor(3, "precipitacion", 1, true, Precipitacion("pluv", 0.02));
    lt := ObtenerLectura(t);
    lh := ObtenerLectura(h);
    lp := ObtenerLectura(p);
  }
}

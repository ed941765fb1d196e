/** A sensor reading: the measured value, the moment it was taken and the
    sensor that produced it. The moment is an opaque instant: the clock is
    not modelled, only the fact that a reading carries one. */
module Lecturas {

  datatype Lectura = Lectura(valor: real, fechaHora: nat, sensorId: int)
}

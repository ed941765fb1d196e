/** A system user: contact data, a list of permissions and the list of plot
    ids assigned to them, which grows without repeating an id. */
module Usuarios {
  import opened Seqs

  /** The permission that lets a user read the plots assigned to them. */
  const PermisoLectura: string := "lectura_parcela"

  /** `parcelas_asignadas` after `asignar_parcela(parcelaId)`. */
  function Asignadas(parcelas: seq<int>, parcelaId: int): seq<int>
  {
    if parcelaId in parcelas then parcelas else parcelas + [parcelaId]
  }

  /** `puede_acceder_parcela`, on the two fields it reads. */
  predicate Acceso(permisos: seq<string>, parcelas: seq<int>, parcelaId: int)
  {
    PermisoLectura in permisos && parcelaId in parcelas
  }

  /** Assigning keeps every earlier id in place and, when the id is new,
      appends it at the end; afterwards the id is always present. */
  lemma AsignadasExtiende(parcelas: seq<int>, parcelaId: int)
    ensures parcelas <= Asignadas(parcelas, parcelaId)
    ensures parcelaId in Asignadas(parcelas, parcelaId)
    ensures parcelaId !in parcelas ==> Asignadas(parcelas, parcelaId) == parcelas + [parcelaId]
    ensures parcelaId in parcelas ==> Asignadas(parcelas, parcelaId) == parcelas
  {
  }

  /** Assigning the same plot twice is assigning it once. */
  lemma AsignadasIdempotente(parcelas: seq<int>, parcelaId: int)
    ensures Asignadas(Asignadas(parcelas, parcelaId), parcelaId) == Asignadas(parcelas, parcelaId)
  {
  }

  /** A list that starts without repetitions stays so. */
  lemma AsignadasSinDuplicados(parcelas: seq<int>, parcelaId: int)
    requires NoDuplicates(parcelas)
    ensures NoDuplicates(Asignadas(parcelas, parcelaId))
  {
  }

  /** Assigning a plot grants access to that plot exactly when the user holds
      the read permission, and changes access to no other plot. */
  lemma AccesoTrasAsignar(permisos: seq<string>, parcelas: seq<int>, parcelaId: int, otra: int)
    ensures Acceso(permisos, Asignadas(parcelas, parcelaId), parcelaId) <==> PermisoLectura in permisos
    ensures otra != parcelaId ==>
      (Acceso(permisos, Asignadas(parcelas, parcelaId), otra) <==> Acceso(permisos, parcelas, otra))
  {
  }

  class Usuario {
    var id: int
    var nombre: string
    var rol: string
    var email: string
    var telefono: string
    var zonasInteres: seq<int>
    var permisos: seq<string>
    var parcelasAsignadas: seq<int>

    ghost predicate Valid()
      reads this
    {
      NoDuplicates(parcelasAsignadas)
    }

    /** A new user with the given assigned plots (`[]` is the field's
        default). Nothing checks the initial list for repeats. */
    constructor (id: int, nombre: string, rol: string, email: string, telefono: string,
                 zonasInteres: seq<int>, permisos: seq<string>, parcelasAsignadas: seq<int>)
      ensures this.id == id && this.nombre == nombre && this.rol == rol && this.email == email
      ensures this.telefono == telefono && this.zonasInteres == zonasInteres && this.permisos == permisos
      ensures this.parcelasAsignadas == parcelasAsignadas
    {
      this.id := id;
      this.nombre := nombre;
      this.rol := rol;
      this.email := email;
      this.telefono := telefono;
      this.zonasInteres := zonasInteres;
      this.permisos := permisos;
      this.parcelasAsignadas := parcelasAsignadas;
    }

    function PuedeAccederParcela(parcelaId: int): bool
      reads this
    {
      Acceso(permisos, parcelasAsignadas, parcelaId)
    }

    /** `asignar_parcela`: appends the id unless it is already assigned; no
        other field changes, and a list without repeats stays so. */
    method AsignarParcela(parcelaId: int)
      modifies this`parcelasAsignadas
      ensures old(Valid()) ==> Valid()
      ensures parcelasAsignadas == Asignadas(old(parcelasAsignadas), parcelaId)
    {
      if Valid() {
        AsignadasSinDuplicados(parcelasAsignadas, parcelaId);
      }
      if parcelaId !in parcelasAsignadas {
        parcelasAsignadas := parcelasAsignadas + [parcelaId];
      }
    }

    /** `obtener_parcelas`: a copy of the assigned ids; the user is left as
        it was. */
    method ObtenerParcelas() returns (r: seq<int>)
      ensures r == parcelasAsignadas
    {
      r := parcelasAsignadas;
    }
  }

  /** The user of the module's own test: with the read permission, after
      being assigned plot 10 they may read 10 but not 11, and their plots are
      exactly [10]. */
  method PruebaUsuario() returns (acceso10: bool, acceso11: bool, parcelas: seq<int>)
    ensures acceso10 && !acceso11
    ensures parcelas == [10]
  {
    var u := new Usuario(1, "Luis", "tecnico", "l@x.com", "123", [1], [PermisoLectura], []);
    u.AsignarParcela(10);
    acceso10 := u.PuedeAccederParcela(10);
    acceso11 := u.PuedeAccederParcela(11);
    parcelas := u.ObtenerParcelas();
  }
}

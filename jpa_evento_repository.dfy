/** The meaning of the event table's queries. */
module JpaEventoRepository {
  import opened ModeloEvento

  type Tabla = map<int, Evento>

  /** Exactly the events in the given lifecycle state. */
  function FindByEstado(t: Tabla, estado: EstadoEvento): (r: Tabla)
    ensures forall k :: k in r <==> k in t && t[k].estado == estado
    ensures forall k :: k in r ==> r[k] == t[k]
  {
    map k | k in t && t[k].estado == estado :: t[k]
  }

  /** WHERE participantesRegistrados < capacidadMaxima AND estado = 'ACTIVO':
      exactly the events that are active and have a free slot. */
  function FindEventosConCapacidadDisponible(t: Tabla): (r: Tabla)
    ensures forall k :: k in r <==> k in t && t[k].TieneCapacidadDisponible() && t[k].EstaActivo()
    ensures forall k :: k in r ==> r[k] == t[k] && r[k].CuposDisponibles() > 0
  {
    map k | k in t && t[k].participantesRegistrados < t[k].capacidadMaxima && t[k].estado == Activo :: t[k]
  }

  /** Order used for ORDER BY fechaInicio ASC; rows that start together are
      taken by ascending id (the query itself leaves their order open). */
  predicate Antes(t: Tabla, i: int, j: int)
    requires i in t && j in t
  {
    t[i].fechaInicio < t[j].fechaInicio || (t[i].fechaInicio == t[j].fechaInicio && i <= j)
  }

  /** Every non-empty set of ids has a first element in that order. */
  lemma {:induction false} PrimeroExiste(t: Tabla, ids: set<int>)
    requires ids != {} && ids <= t.Keys
    ensures exists k :: k in ids && forall j :: j in ids ==> Antes(t, k, j)
    decreases |ids|
  {
    if forall x :: x !in ids { assert false; }
    var x :| x in ids;
    var resto := ids - {x};
    if resto == {} {
      assert ids == {x};
    } else {
      PrimeroExiste(t, resto);
      var y :| y in resto && forall j :: j in resto ==> Antes(t, y, j);
      var m := if Antes(t, x, y) then x else y;
      forall j | j in ids ensures Antes(t, m, j) {
        if j != x {
          assert j in resto && Antes(t, y, j);
        }
      }
    }
  }

  /** The first id of a non-empty set in start order. */
  function Primero(t: Tabla, ids: set<int>): (k: int)
    requires ids != {} && ids <= t.Keys
    ensures k in ids && forall j :: j in ids ==> Antes(t, k, j)
  {
    PrimeroExiste(t, ids);
    var k :| k in ids && forall j :: j in ids ==> Antes(t, k, j);
    k
  }

  /** The ids, each once, listed by ascending start date. */
  function OrdenarPorInicio(t: Tabla, ids: set<int>): (r: seq<int>)
    requires ids <= t.Keys
    ensures |r| == |ids|
    ensures forall i :: 0 <= i < |r| ==> r[i] in ids
    ensures forall k :: k in ids ==> k in r
    ensures forall i, j :: 0 <= i < j < |r| ==> r[i] != r[j]
    ensures forall i, j :: 0 <= i < j < |r| ==> t[r[i]].fechaInicio <= t[r[j]].fechaInicio
    decreases |ids|
  {
    if ids == {} then []
    else
      var k := Primero(t, ids);
      var resto := OrdenarPorInicio(t, ids - {k});
      [k] + resto
  }

  /** The ids of the events starting at or after desde. */
  function IdsDesde(t: Tabla, desde: int): set<int> {
    set k | k in t && t[k].fechaInicio >= desde
  }

  /** WHERE fechaInicio >= :desde ORDER BY fechaInicio ASC: exactly the events
      starting at or after desde, each once, sorted by start date. */
  function FindEventosProximos(t: Tabla, desde: int): (r: seq<Evento>)
    ensures |r| == |IdsDesde(t, desde)|
    ensures forall i :: 0 <= i < |r| ==> r[i].fechaInicio >= desde && r[i] in t.Values
    ensures forall k :: k in t && t[k].fechaInicio >= desde ==> t[k] in r
    ensures forall i, j :: 0 <= i < j < |r| ==> r[i].fechaInicio <= r[j].fechaInicio
    ensures (forall k :: k in t ==> t[k].id == k) ==> forall i, j :: 0 <= i < j < |r| ==> r[i] != r[j]
  {
    var orden := OrdenarPorInicio(t, IdsDesde(t, desde));
    var r := Filas(t, orden);
    forall k | k in t && t[k].fechaInicio >= desde ensures t[k] in r {
      assert k in IdsDesde(t, desde);
      var i :| 0 <= i < |orden| && orden[i] == k;
      assert r[i] == t[k];
    }
    r
  }

  /** The rows of the listed ids, in the same order. */
  function Filas(t: Tabla, ids: seq<int>): (r: seq<Evento>)
    requires forall i :: 0 <= i < |ids| ==> ids[i] in t
    ensures |r| == |ids|
    ensures forall i :: 0 <= i < |ids| ==> r[i] == t[ids[i]]
  {
    if ids == [] then [] else [t[ids[0]]] + Filas(t, ids[1..])
  }
}

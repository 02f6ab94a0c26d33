/** The meaning of the attendance table's queries. The table is a map from
    row id to row; a query that returns an unordered list is given as the
    sub-map of the rows it selects. */
module JpaAsistenciaRepository {
  import opened Resultados
  import opened ModeloAsistencia

  type Tabla = map<int, Asistencia>

  /** The storage's unique constraint on (evento_id, participante_id). */
  ghost predicate UnicoPorPar(t: Tabla) {
    forall i, j ::
      i in t && j in t && t[i].eventoId == t[j].eventoId && t[i].participanteId == t[j].participanteId
      ==> i == j
  }

  predicate EsDelEvento(t: Tabla, k: int, eventoId: int)
    requires k in t
  {
    t[k].eventoId == eventoId
  }

  predicate EsDelPar(t: Tabla, k: int, eventoId: int, participanteId: int)
    requires k in t
  {
    t[k].eventoId == eventoId && t[k].participanteId == participanteId
  }

  /** Exactly the rows of the event, unchanged. */
  function FindByEventoId(t: Tabla, eventoId: int): (r: Tabla)
    ensures forall k :: k in r <==> k in t && t[k].eventoId == eventoId
    ensures forall k :: k in r ==> r[k] == t[k]
  {
    map k | k in t && EsDelEvento(t, k, eventoId) :: t[k]
  }

  /** Exactly the rows of the participant, unchanged. */
  function FindByParticipanteId(t: Tabla, participanteId: int): (r: Tabla)
    ensures forall k :: k in r <==> k in t && t[k].participanteId == participanteId
    ensures forall k :: k in r ==> r[k] == t[k]
  {
    map k | k in t && t[k].participanteId == participanteId :: t[k]
  }

  /** Exactly the rows of the event that have the given status. */
  function FindByEventoIdAndEstado(t: Tabla, eventoId: int, estado: EstadoAsistencia): (r: Tabla)
    ensures forall k :: k in r <==> k in t && t[k].eventoId == eventoId && t[k].estado == estado
    ensures forall k :: k in r ==> r[k] == t[k]
  {
    map k | k in t && EsDelEvento(t, k, eventoId) && t[k].estado == estado :: t[k]
  }

  /** The ids of the event's rows. */
  function IdsDelEvento(t: Tabla, eventoId: int): set<int> {
    set k | k in t && EsDelEvento(t, k, eventoId)
  }

  /** The ids of the event's rows with the given status. */
  function IdsDelEventoConEstado(t: Tabla, eventoId: int, estado: EstadoAsistencia): set<int> {
    set k | k in t && EsDelEvento(t, k, eventoId) && t[k].estado == estado
  }

  /** SELECT COUNT(a) ... WHERE evento = :eventoId: zero exactly when no row
      is for the event, and never above the table's size. */
  function CountByEventoId(t: Tabla, eventoId: int): (r: nat)
    ensures r == 0 <==> forall k :: k in t ==> t[k].eventoId != eventoId
    ensures r <= |t|
  {
    var ids := IdsDelEvento(t, eventoId);
    CardinalDisjunta(ids, t.Keys - ids);
    assert ids + (t.Keys - ids) == t.Keys;
    |ids|
  }

  /** SELECT COUNT(a) ... WHERE evento = :eventoId AND estado = :estado: never
      above the event's total count. */
  function CountByEventoIdAndEstado(t: Tabla, eventoId: int, estado: EstadoAsistencia): (r: nat)
    ensures r <= CountByEventoId(t, eventoId)
  {
    var parte := IdsDelEventoConEstado(t, eventoId, estado);
    var todo := IdsDelEvento(t, eventoId);
    CardinalDisjunta(parte, todo - parte);
    assert parte + (todo - parte) == todo;
    |parte|
  }

  /** The count is the size of the list the matching find returns. */
  lemma CountEsTamanoDeFind(t: Tabla, eventoId: int, estado: EstadoAsistencia)
    ensures CountByEventoId(t, eventoId) == |FindByEventoId(t, eventoId)|
    ensures CountByEventoIdAndEstado(t, eventoId, estado) == |FindByEventoIdAndEstado(t, eventoId, estado)|
  {
    assert FindByEventoId(t, eventoId).Keys == IdsDelEvento(t, eventoId);
    assert FindByEventoIdAndEstado(t, eventoId, estado).Keys == IdsDelEventoConEstado(t, eventoId, estado);
  }

  /** Every row of an event has exactly one of the five statuses, so the five
      per-status counts add up to the event's total count. */
  lemma SumaDeEstados(t: Tabla, eventoId: int)
    ensures CountByEventoId(t, eventoId)
            == CountByEventoIdAndEstado(t, eventoId, CONFIRMADO)
             + CountByEventoIdAndEstado(t, eventoId, CANCELADO)
             + CountByEventoIdAndEstado(t, eventoId, ASISTIO)
             + CountByEventoIdAndEstado(t, eventoId, NO_ASISTIO)
             + CountByEventoIdAndEstado(t, eventoId, EN_ESPERA)
  {
    var conf := IdsDelEventoConEstado(t, eventoId, CONFIRMADO);
    var canc := IdsDelEventoConEstado(t, eventoId, CANCELADO);
    var asis := IdsDelEventoConEstado(t, eventoId, ASISTIO);
    var noas := IdsDelEventoConEstado(t, eventoId, NO_ASISTIO);
    var espe := IdsDelEventoConEstado(t, eventoId, EN_ESPERA);
    var u1 := conf + canc;
    var u2 := u1 + asis;
    var u3 := u2 + noas;
    var u4 := u3 + espe;
    CardinalDisjunta(conf, canc);
    CardinalDisjunta(u1, asis);
    CardinalDisjunta(u2, noas);
    CardinalDisjunta(u3, espe);
    forall k | k in IdsDelEvento(t, eventoId) ensures k in u4 {
      match t[k].estado
      case CONFIRMADO => assert k in conf;
      case CANCELADO => assert k in canc;
      case ASISTIO => assert k in asis;
      case NO_ASISTIO => assert k in noas;
      case EN_ESPERA => assert k in espe;
    }
    assert IdsDelEvento(t, eventoId) == u4;
  }

  /** Inserting a new row of an event adds one to its total count and to the
      count of the row's status, and leaves every other status's count alone. */
  lemma CountTrasInsertar(t: Tabla, a: Asistencia)
    requires a.id !in t
    ensures CountByEventoId(t[a.id := a], a.eventoId) == CountByEventoId(t, a.eventoId) + 1
    ensures CountByEventoIdAndEstado(t[a.id := a], a.eventoId, a.estado)
            == CountByEventoIdAndEstado(t, a.eventoId, a.estado) + 1
    ensures forall s :: s != a.estado ==>
              CountByEventoIdAndEstado(t[a.id := a], a.eventoId, s) == CountByEventoIdAndEstado(t, a.eventoId, s)
  {
    var u := t[a.id := a];
    assert IdsDelEvento(u, a.eventoId) == IdsDelEvento(t, a.eventoId) + {a.id};
    assert IdsDelEventoConEstado(u, a.eventoId, a.estado)
        == IdsDelEventoConEstado(t, a.eventoId, a.estado) + {a.id};
    forall s | s != a.estado
      ensures CountByEventoIdAndEstado(u, a.eventoId, s) == CountByEventoIdAndEstado(t, a.eventoId, s)
    {
      assert IdsDelEventoConEstado(u, a.eventoId, s) == IdsDelEventoConEstado(t, a.eventoId, s);
    }
  }

  /** Changing the status of a row moves it from its old status's count to its
      new status's count; the event's total stays the same. */
  lemma CountTrasCambiarEstado(t: Tabla, k: int, b: Asistencia)
    requires k in t && b.eventoId == t[k].eventoId && b.estado != t[k].estado
    ensures CountByEventoId(t[k := b], b.eventoId) == CountByEventoId(t, b.eventoId)
    ensures CountByEventoIdAndEstado(t[k := b], b.eventoId, t[k].estado)
            == CountByEventoIdAndEstado(t, b.eventoId, t[k].estado) - 1
    ensures CountByEventoIdAndEstado(t[k := b], b.eventoId, b.estado)
            == CountByEventoIdAndEstado(t, b.eventoId, b.estado) + 1
  {
    var u := t[k := b];
    assert IdsDelEvento(u, b.eventoId) == IdsDelEvento(t, b.eventoId);
    var antes := IdsDelEventoConEstado(t, b.eventoId, t[k].estado);
    assert IdsDelEventoConEstado(u, b.eventoId, t[k].estado) == antes - {k};
    assert IdsDelEventoConEstado(u, b.eventoId, b.estado)
        == IdsDelEventoConEstado(t, b.eventoId, b.estado) + {k};
  }

  /** Deleting a row takes one from its event's total and from its status's count. */
  lemma CountTrasQuitar(t: Tabla, k: int)
    requires k in t
    ensures CountByEventoId(t - {k}, t[k].eventoId) == CountByEventoId(t, t[k].eventoId) - 1
    ensures CountByEventoIdAndEstado(t - {k}, t[k].eventoId, t[k].estado)
            == CountByEventoIdAndEstado(t, t[k].eventoId, t[k].estado) - 1
  {
    var u := t - {k};
    assert IdsDelEvento(u, t[k].eventoId) == IdsDelEvento(t, t[k].eventoId) - {k};
    assert IdsDelEventoConEstado(u, t[k].eventoId, t[k].estado)
        == IdsDelEventoConEstado(t, t[k].eventoId, t[k].estado) - {k};
  }

  lemma CardinalDisjunta<T>(a: set<T>, b: set<T>)
    requires a !! b
    ensures |a + b| == |a| + |b|
  {
  }

  /** SELECT CASE WHEN COUNT(a) > 0 ... for the pair: when it holds, the
      event's own count is not zero. */
  function ExistsByEventoIdAndParticipanteId(t: Tabla, eventoId: int, participanteId: int): (r: bool)
    ensures r ==> CountByEventoId(t, eventoId) > 0
  {
    exists k :: k in t && EsDelPar(t, k, eventoId, participanteId)
  }

  /** The single row of the pair, if any; well defined because of the
      storage's unique constraint. */
  function FindByEventoIdAndParticipanteId(t: Tabla, eventoId: int, participanteId: int): (r: Option<Asistencia>)
    requires UnicoPorPar(t)
    ensures r.Some? <==> ExistsByEventoIdAndParticipanteId(t, eventoId, participanteId)
    ensures r.Some? ==> r.value.eventoId == eventoId && r.value.participanteId == participanteId
    ensures r.Some? ==> exists k :: k in t && t[k] == r.value
  {
    if ExistsByEventoIdAndParticipanteId(t, eventoId, participanteId) then
      var k :| k in t && EsDelPar(t, k, eventoId, participanteId);
      Some(t[k])
    else
      None
  }

  /** The table after DELETE ... WHERE evento = :eventoId AND participante = :participanteId. */
  function SinPar(t: Tabla, eventoId: int, participanteId: int): (r: Tabla)
    ensures forall k :: k in r <==> k in t && !EsDelPar(t, k, eventoId, participanteId)
    ensures forall k :: k in r ==> r[k] == t[k]
    ensures !ExistsByEventoIdAndParticipanteId(r, eventoId, participanteId)
  {
    map k | k in t && !EsDelPar(t, k, eventoId, participanteId) :: t[k]
  }

  /** The table after the cascade that deleting an event triggers. */
  function SinEvento(t: Tabla, eventoId: int): (r: Tabla)
    ensures forall k :: k in r <==> k in t && t[k].eventoId != eventoId
    ensures forall k :: k in r ==> r[k] == t[k]
    ensures CountByEventoId(r, eventoId) == 0
  {
    var r := map k | k in t && !EsDelEvento(t, k, eventoId) :: t[k];
    assert IdsDelEvento(r, eventoId) == {};
    r
  }

  /** The table after the cascade that deleting a participant triggers. */
  function SinParticipante(t: Tabla, participanteId: int): (r: Tabla)
    ensures forall k :: k in r <==> k in t && t[k].participanteId != participanteId
    ensures forall k :: k in r ==> r[k] == t[k]
  {
    map k | k in t && t[k].participanteId != participanteId :: t[k]
  }

  /** Under the unique constraint, deleting by pair removes at most one row. */
  lemma SinParQuitaALoSumoUna(t: Tabla, eventoId: int, participanteId: int)
    requires UnicoPorPar(t)
    ensures |SinPar(t, eventoId, participanteId)| + 1 >= |t|
    ensures ExistsByEventoIdAndParticipanteId(t, eventoId, participanteId) ==>
              |SinPar(t, eventoId, participanteId)| + 1 == |t|
    ensures !ExistsByEventoIdAndParticipanteId(t, eventoId, participanteId) ==>
              SinPar(t, eventoId, participanteId) == t
  {
    var r := SinPar(t, eventoId, participanteId);
    if ExistsByEventoIdAndParticipanteId(t, eventoId, participanteId) {
      var k :| k in t && EsDelPar(t, k, eventoId, participanteId);
      assert r.Keys == t.Keys - {k};
    } else {
      assert r.Keys == t.Keys;
    }
  }
}

/** The relational store behind the three repositories: one table per entity,
    keyed by the id the store generates (IDENTITY columns). */
module Persistencia {
  import opened ModeloEvento
  import opened ModeloAsistencia
  import opened ModeloParticipante
  import JA = JpaAsistenciaRepository
  import JP = JpaParticipanteRepository

  class Almacen {
    var eventos: map<int, Evento>
    var participantes: map<int, Participante>
    var asistencias: map<int, Asistencia>
    /** The next value of each IDENTITY column. */
    var siguienteEventoId: int
    var siguienteParticipanteId: int
    var siguienteAsistenciaId: int

    /** The constraints the store itself enforces: every row sits under its
        own id, ids come from the IDENTITY counter, attendance rows reference
        existing rows (foreign keys), and the unique constraints on
        (evento, participante), email and documento. */
    ghost predicate Valid()
      reads this
    {
      && (forall k :: k in eventos ==> eventos[k].id == k && k < siguienteEventoId)
      && (forall k :: k in participantes ==> participantes[k].id == k && k < siguienteParticipanteId)
      && (forall k :: k in asistencias ==> asistencias[k].id == k && k < siguienteAsistenciaId)
      && (forall k :: k in asistencias ==>
            asistencias[k].eventoId in eventos && asistencias[k].participanteId in participantes)
      && JA.UnicoPorPar(asistencias)
      && JP.EmailsUnicos(participantes)
      && JP.DocumentosUnicos(participantes)
    }

    /** The capacity invariant: for every event, 0 <= registered <= capacity.
        It is kept by the operations, not by the store. */
    ghost predicate CuposCoherentes()
      reads this
    {
      forall k :: k in eventos ==>
        0 <= eventos[k].participantesRegistrados <= eventos[k].capacidadMaxima
    }

    constructor ()
      ensures Valid() && CuposCoherentes()
      ensures eventos == map[] && participantes == map[] && asistencias == map[]
    {
      eventos, participantes, asistencias := map[], map[], map[];
      siguienteEventoId, siguienteParticipanteId, siguienteAsistenciaId := 1, 1, 1;
    }

    /** save of a new attendance row: the IDENTITY column gives it the next
        id; the foreign keys and the pair's unique constraint must hold. */
    method InsertarAsistencia(a: Asistencia) returns (guardada: Asistencia)
      requires Valid()
      requires a.eventoId in eventos && a.participanteId in participantes
      requires !JA.ExistsByEventoIdAndParticipanteId(asistencias, a.eventoId, a.participanteId)
      modifies this
      ensures Valid()
      ensures guardada == a.(id := old(siguienteAsistenciaId)) && guardada.id !in old(asistencias)
      ensures asistencias == old(asistencias)[guardada.id := guardada]
      ensures eventos == old(eventos) && participantes == old(participantes)
      ensures CuposCoherentes() == old(CuposCoherentes())
      ensures siguienteAsistenciaId == old(siguienteAsistenciaId) + 1
      ensures siguienteEventoId == old(siguienteEventoId) && siguienteParticipanteId == old(siguienteParticipanteId)
    {
      guardada := a.(id := siguienteAsistenciaId);
      asistencias := asistencias[guardada.id := guardada];
      siguienteAsistenciaId := siguienteAsistenciaId + 1;
    }

    /** save of an existing attendance row that keeps its event and
        participant. */
    method ActualizarAsistencia(b: Asistencia)
      requires Valid()
      requires b.id in asistencias
      requires b.eventoId == asistencias[b.id].eventoId && b.participanteId == asistencias[b.id].participanteId
      modifies this
      ensures Valid()
      ensures asistencias == old(asistencias)[b.id := b]
      ensures eventos == old(eventos) && participantes == old(participantes)
      ensures CuposCoherentes() == old(CuposCoherentes())
      ensures siguienteEventoId == old(siguienteEventoId) && siguienteParticipanteId == old(siguienteParticipanteId)
      ensures siguienteAsistenciaId == old(siguienteAsistenciaId)
    {
      asistencias := asistencias[b.id := b];
    }

    /** deleteById on the attendance table. */
    method EliminarAsistenciaPorId(id: int)
      requires Valid()
      modifies this
      ensures Valid()
      ensures asistencias == old(asistencias) - {id}
      ensures eventos == old(eventos) && participantes == old(participantes)
      ensures CuposCoherentes() == old(CuposCoherentes())
      ensures siguienteEventoId == old(siguienteEventoId) && siguienteParticipanteId == old(siguienteParticipanteId)
      ensures siguienteAsistenciaId == old(siguienteAsistenciaId)
    {
      asistencias := asistencias - {id};
    }

    /** DELETE FROM asistencias WHERE evento = :eventoId AND participante = :participanteId. */
    method DeleteByEventoIdAndParticipanteId(eventoId: int, participanteId: int)
      requires Valid()
      modifies this
      ensures Valid()
      ensures asistencias == JA.SinPar(old(asistencias), eventoId, participanteId)
      ensures |old(asistencias)| - |asistencias| == if JA.ExistsByEventoIdAndParticipanteId(old(asistencias), eventoId, participanteId) then 1 else 0
      ensures eventos == old(eventos) && participantes == old(participantes)
      ensures CuposCoherentes() == old(CuposCoherentes())
      ensures siguienteEventoId == old(siguienteEventoId) && siguienteParticipanteId == old(siguienteParticipanteId)
      ensures siguienteAsistenciaId == old(siguienteAsistenciaId)
    {
      JA.SinParQuitaALoSumoUna(asistencias, eventoId, participanteId);
      asistencias := JA.SinPar(asistencias, eventoId, participanteId);
    }
  }
}

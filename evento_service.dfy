/** EventoService: event CRUD, its validation, and the registered-count
    counter that only this service writes. */
module EventoServicio {
  import opened Resultados
  import opened ModeloEvento
  import opened Persistencia
  import JA = JpaAsistenciaRepository
  import JE = JpaEventoRepository

  /** The three creation/update checks, in the order validarDatosEvento
      makes them: start not in the past, end not before start (equal is
      accepted), capacity positive. */
  function ValidarDatosEvento(e: Evento, now: int): (r: Outcome)
    ensures r.Pass? <==> now <= e.fechaInicio && e.fechaInicio <= e.fechaFin && e.capacidadMaxima > 0
    ensures e.fechaInicio < now ==> r == Fail(BusinessRule(InicioEnPasado))
    ensures now <= e.fechaInicio && e.fechaFin < e.fechaInicio ==> r == Fail(BusinessRule(FinAntesDeInicio))
    ensures now <= e.fechaInicio <= e.fechaFin && e.capacidadMaxima <= 0 ==> r == Fail(BusinessRule(CapacidadNoPositiva))
  {
    if e.fechaInicio < now then Fail(BusinessRule(InicioEnPasado))
    else if e.fechaFin < e.fechaInicio then Fail(BusinessRule(FinAntesDeInicio))
    else if e.capacidadMaxima <= 0 then Fail(BusinessRule(CapacidadNoPositiva))
    else Pass
  }

  /** The event row after incrementarParticipantes: one more registered,
      update time stamped, nothing else touched; capacity is not checked. */
  function ConUnoMas(e: Evento, now: int): (r: Evento)
    ensures r.participantesRegistrados == e.participantesRegistrados + 1
    ensures r.fechaActualizacion == Some(now)
    ensures r.(participantesRegistrados := e.participantesRegistrados, fechaActualizacion := e.fechaActualizacion) == e
    ensures e.TieneCapacidadDisponible() ==> r.participantesRegistrados <= r.capacidadMaxima
  {
    e.(participantesRegistrados := e.participantesRegistrados + 1, fechaActualizacion := Some(now))
  }

  /** The event row after decrementarParticipantes: one fewer registered when
      the counter is positive, otherwise the row is left as it was; the
      counter never becomes negative. */
  function ConUnoMenos(e: Evento, now: int): (r: Evento)
    ensures e.participantesRegistrados > 0 ==>
              r.participantesRegistrados == e.participantesRegistrados - 1 && r.fechaActualizacion == Some(now)
    ensures e.participantesRegistrados <= 0 ==> r == e
    ensures e.participantesRegistrados >= 0 ==> r.participantesRegistrados >= 0
    ensures r.participantesRegistrados <= e.participantesRegistrados
    ensures r.(participantesRegistrados := e.participantesRegistrados, fechaActualizacion := e.fechaActualizacion) == e
  {
    if e.participantesRegistrados > 0 then
      e.(participantesRegistrados := e.participantesRegistrados - 1, fechaActualizacion := Some(now))
    else
      e
  }

  class EventoService {
    const db: Almacen

    constructor (db: Almacen)
      ensures this.db == db
    {
      this.db := db;
    }

    /** findById, or NotFound. */
    method ObtenerEventoPorId(id: int) returns (r: Result<Evento>)
      requires db.Valid()
      ensures r.Ok? <==> id in db.eventos
      ensures r.Ok? ==> r.value == db.eventos[id] && r.value.id == id
      ensures r.Err? ==> r.error == NotFound(RecursoEvento)
    {
      if id in db.eventos {
        r := Ok(db.eventos[id]);
      } else {
        r := Err(NotFound(RecursoEvento));
      }
    }

    /** Validates, then stores the event under a fresh id with counter 0,
        state ACTIVO and creation time now. */
    method CrearEvento(evento: Evento, now: int) returns (r: Result<Evento>)
      requires db.Valid()
      modifies db
      ensures db.Valid()
      ensures ValidarDatosEvento(evento, now).Fail? ==>
                r == Err(ValidarDatosEvento(evento, now).error) && unchanged(db)
      ensures ValidarDatosEvento(evento, now).Pass? ==>
                && r.Ok?
                && r.value.id !in old(db.eventos)
                && r.value == evento.(id := r.value.id, participantesRegistrados := 0,
                                      estado := Activo, fechaCreacion := now)
                && db.eventos == old(db.eventos)[r.value.id := r.value]
      ensures db.participantes == old(db.participantes) && db.asistencias == old(db.asistencias)
      ensures old(db.CuposCoherentes()) ==> db.CuposCoherentes()
      ensures db.siguienteParticipanteId == old(db.siguienteParticipanteId)
      ensures db.siguienteAsistenciaId == old(db.siguienteAsistenciaId)
    {
      var v := ValidarDatosEvento(evento, now);
      if v.Fail? {
        return Err(v.error);
      }
      var id := db.siguienteEventoId;
      var creado := evento.(id := id, participantesRegistrados := 0, estado := Activo, fechaCreacion := now);
      db.eventos := db.eventos[id := creado];
      db.siguienteEventoId := id + 1;
      r := Ok(creado);
    }

    /** Looks the event up, validates the new data, refuses a capacity below
        the registered count, then replaces the row keeping id, counter and
        creation time. */
    method ActualizarEvento(id: int, nuevo: Evento, now: int) returns (r: Result<Evento>)
      requires db.Valid()
      modifies db
      ensures db.Valid()
      ensures id !in old(db.eventos) ==> r == Err(NotFound(RecursoEvento)) && unchanged(db)
      ensures id in old(db.eventos) && ValidarDatosEvento(nuevo, now).Fail? ==>
                r == Err(ValidarDatosEvento(nuevo, now).error) && unchanged(db)
      ensures id in old(db.eventos) && ValidarDatosEvento(nuevo, now).Pass?
              && nuevo.capacidadMaxima < old(db.eventos[id].participantesRegistrados) ==>
                r == Err(BusinessRule(CapacidadMenorQueRegistrados)) && unchanged(db)
      ensures r.Ok? <==>
                && id in old(db.eventos)
                && ValidarDatosEvento(nuevo, now).Pass?
                && nuevo.capacidadMaxima >= old(db.eventos[id].participantesRegistrados)
      ensures r.Ok? ==>
                && id in old(db.eventos)
                && ValidarDatosEvento(nuevo, now).Pass?
                && nuevo.capacidadMaxima >= old(db.eventos[id].participantesRegistrados)
                && r.value == nuevo.(id := id,
                                     participantesRegistrados := old(db.eventos[id].participantesRegistrados),
                                     fechaCreacion := old(db.eventos[id].fechaCreacion),
                                     fechaActualizacion := Some(now))
                && db.eventos == old(db.eventos)[id := r.value]
      ensures r.Err? ==> unchanged(db)
      ensures db.participantes == old(db.participantes) && db.asistencias == old(db.asistencias)
      ensures old(db.CuposCoherentes()) ==> db.CuposCoherentes()
      ensures db.siguienteEventoId == old(db.siguienteEventoId)
      ensures db.siguienteParticipanteId == old(db.siguienteParticipanteId)
      ensures db.siguienteAsistenciaId == old(db.siguienteAsistenciaId)
    {
      var existente := ObtenerEventoPorId(id);
      if existente.Err? {
        return Err(existente.error);
      }
      var v := ValidarDatosEvento(nuevo, now);
      if v.Fail? {
        return Err(v.error);
      }
      if nuevo.capacidadMaxima < existente.value.participantesRegistrados {
        return Err(BusinessRule(CapacidadMenorQueRegistrados));
      }
      var actualizado := nuevo.(id := id,
                                participantesRegistrados := existente.value.participantesRegistrados,
                                fechaCreacion := existente.value.fechaCreacion,
                                fechaActualizacion := Some(now));
      db.eventos := db.eventos[id := actualizado];
      r := Ok(actualizado);
    }

    /** Deletes the event; the store's cascade removes its attendance rows. */
    method EliminarEvento(id: int) returns (r: Outcome)
      requires db.Valid()
      modifies db
      ensures db.Valid()
      ensures id !in old(db.eventos) ==> r == Fail(NotFound(RecursoEvento)) && unchanged(db)
      ensures id in old(db.eventos) ==>
                && r == Pass
                && db.eventos == old(db.eventos) - {id}
                && db.asistencias == JA.SinEvento(old(db.asistencias), id)
                && db.participantes == old(db.participantes)
      ensures old(db.CuposCoherentes()) ==> db.CuposCoherentes()
      ensures db.siguienteEventoId == old(db.siguienteEventoId)
      ensures db.siguienteParticipanteId == old(db.siguienteParticipanteId)
      ensures db.siguienteAsistenciaId == old(db.siguienteAsistenciaId)
    {
      if id !in db.eventos {
        return Fail(NotFound(RecursoEvento));
      }
      db.eventos := db.eventos - {id};
      db.asistencias := JA.SinEvento(db.asistencias, id);
      r := Pass;
    }

    /** Sets the lifecycle state and the update time; nothing else changes. */
    method CambiarEstadoEvento(id: int, nuevoEstado: EstadoEvento, now: int) returns (r: Result<Evento>)
      requires db.Valid()
      modifies db
      ensures db.Valid()
      ensures id !in old(db.eventos) ==> r == Err(NotFound(RecursoEvento)) && unchanged(db)
      ensures id in old(db.eventos) ==>
                && r == Ok(old(db.eventos[id]).(estado := nuevoEstado, fechaActualizacion := Some(now)))
                && db.eventos == old(db.eventos)[id := r.value]
      ensures db.participantes == old(db.participantes) && db.asistencias == old(db.asistencias)
      ensures old(db.CuposCoherentes()) ==> db.CuposCoherentes()
      ensures db.siguienteEventoId == old(db.siguienteEventoId)
      ensures db.siguienteParticipanteId == old(db.siguienteParticipanteId)
      ensures db.siguienteAsistenciaId == old(db.siguienteAsistenciaId)
    {
      var evento := ObtenerEventoPorId(id);
      if evento.Err? {
        return Err(evento.error);
      }
      var cambiado := evento.value.(estado := nuevoEstado, fechaActualizacion := Some(now));
      db.eventos := db.eventos[id := cambiado];
      r := Ok(cambiado);
    }

    /** True exactly when the event has a free slot and is ACTIVO. */
    method VerificarCapacidadDisponible(eventoId: int) returns (r: Result<bool>)
      requires db.Valid()
      ensures r.Ok? <==> eventoId in db.eventos
      ensures r.Err? ==> r.error == NotFound(RecursoEvento)
      ensures r.Ok? ==>
                (r.value <==> db.eventos[eventoId].participantesRegistrados < db.eventos[eventoId].capacidadMaxima
                              && db.eventos[eventoId].estado == Activo)
      ensures r.Ok? ==> (r.value <==> eventoId in JE.FindEventosConCapacidadDisponible(db.eventos))
    {
      var evento := ObtenerEventoPorId(eventoId);
      if evento.Err? {
        return Err(evento.error);
      }
      r := Ok(evento.value.TieneCapacidadDisponible() && evento.value.EstaActivo());
    }

    /** Adds one to the counter; does not check capacity. */
    method IncrementarParticipantes(eventoId: int, now: int) returns (r: Outcome)
      requires db.Valid()
      modifies db
      ensures db.Valid()
      ensures eventoId !in old(db.eventos) ==> r == Fail(NotFound(RecursoEvento)) && unchanged(db)
      ensures eventoId in old(db.eventos) ==>
                r == Pass && db.eventos == old(db.eventos)[eventoId := ConUnoMas(old(db.eventos[eventoId]), now)]
      ensures db.participantes == old(db.participantes) && db.asistencias == old(db.asistencias)
      ensures (old(db.CuposCoherentes()) && eventoId in old(db.eventos)
               && old(db.eventos[eventoId]).TieneCapacidadDisponible()) ==> db.CuposCoherentes()
      ensures db.siguienteEventoId == old(db.siguienteEventoId)
      ensures db.siguienteParticipanteId == old(db.siguienteParticipanteId)
      ensures db.siguienteAsistenciaId == old(db.siguienteAsistenciaId)
    {
      var evento := ObtenerEventoPorId(eventoId);
      if evento.Err? {
        return Fail(evento.error);
      }
      db.eventos := db.eventos[eventoId := ConUnoMas(evento.value, now)];
      r := Pass;
    }

    /** Subtracts one from the counter when it is positive; at 0 the row is
        left untouched. */
    method DecrementarParticipantes(eventoId: int, now: int) returns (r: Outcome)
      requires db.Valid()
      modifies db
      ensures db.Valid()
      ensures eventoId !in old(db.eventos) ==> r == Fail(NotFound(RecursoEvento)) && unchanged(db)
      ensures eventoId in old(db.eventos) ==>
                r == Pass && db.eventos == old(db.eventos)[eventoId := ConUnoMenos(old(db.eventos[eventoId]), now)]
      ensures db.participantes == old(db.participantes) && db.asistencias == old(db.asistencias)
      ensures old(db.CuposCoherentes()) ==> db.CuposCoherentes()
      ensures db.siguienteEventoId == old(db.siguienteEventoId)
      ensures db.siguienteParticipanteId == old(db.siguienteParticipanteId)
      ensures db.siguienteAsistenciaId == old(db.siguienteAsistenciaId)
    {
      var evento := ObtenerEventoPorId(eventoId);
      if evento.Err? {
        return Fail(evento.error);
      }
      if evento.value.participantesRegistrados > 0 {
        db.eventos := db.eventos[eventoId := ConUnoMenos(evento.value, now)];
      }
      r := Pass;
    }
  }
}

/** The end-to-end flow of the API on a fresh store: create an event of
    capacity 30 and a participant, register, read the statistics, try to
    register twice, cancel. */
module Escenario {
  import opened Resultados
  import opened ModeloEvento
  import opened ModeloAsistencia
  import opened ModeloParticipante
  import opened Persistencia
  import opened EventoServicio
  import opened ParticipanteServicio
  import opened AsistenciaServicio
  import JA = JpaAsistenciaRepository

  const Hora := 3600
  const Dia := 24 * Hora

  /** A fresh store holding one ACTIVO event of capacity 30, starting in 30
      days, and one participant; no registrations yet. */
  method Preparar(now: int)
    returns (db: Almacen, asistencias: AsistenciaService, eventoId: int, participanteId: int)
    ensures fresh(db) && asistencias.db == db && asistencias.Valid() && db.CuposCoherentes()
    ensures eventoId in db.eventos && participanteId in db.participantes
    ensures db.eventos[eventoId].EstaActivo() && !db.eventos[eventoId].HaFinalizado(now)
    ensures db.eventos[eventoId].capacidadMaxima == 30 && db.eventos[eventoId].participantesRegistrados == 0
    ensures db.asistencias == map[]
    ensures db.participantes.Keys == {participanteId}
    ensures db.participantes[participanteId].email == "carlos.test.e2e@example.com"
    ensures db.participantes[participanteId].documento == "1234567890"
  {
    db := new Almacen();
    var eventos := new EventoService(db);
    var participantes := new ParticipanteService(db);
    asistencias := new AsistenciaService(db, eventos, participantes);
    var pedido := Evento(0, "Workshop de Spring Boot E2E", "Evento de prueba end-to-end",
                         now + 30 * Dia, now + 30 * Dia + 5 * Hora, "Universidad del Cauca",
                         30, 0, Activo, 0, None);
    var evento := eventos.CrearEvento(pedido, now);
    var persona := Participante(0, "Carlos", "Test", "carlos.test.e2e@example.com", "3001234567",
                                "1234567890", "CEDULA_CIUDADANIA", 0, None, {});
    var participante := participantes.CrearParticipante(persona, now);
    eventoId := evento.value.id;
    participanteId := participante.value.id;
  }

  /** One registration that every check of ReglasDeRegistro lets through, at
      time 0 and without notes: the new CONFIRMADO row and the counter's
      increment are all that change. */
  method Inscribir(asistencias: AsistenciaService, eventoId: int, participanteId: int)
    returns (id: int)
    requires asistencias.Valid() && asistencias.db.CuposCoherentes()
    requires ReglasDeRegistro(asistencias.db.eventos, asistencias.db.participantes.Keys,
                              asistencias.db.asistencias, eventoId, participanteId, 0).Pass?
    modifies asistencias.db
    ensures asistencias.Valid() && asistencias.db.CuposCoherentes()
    ensures id !in old(asistencias.db.asistencias)
    ensures asistencias.db.asistencias
            == old(asistencias.db.asistencias)[id := Asistencia(id, eventoId, participanteId, 0, CONFIRMADO, "", None)]
    ensures asistencias.db.eventos
            == old(asistencias.db.eventos)[eventoId := ConUnoMas(old(asistencias.db.eventos[eventoId]), 0)]
    ensures asistencias.db.participantes == old(asistencias.db.participantes)
  {
    var registro := asistencias.RegistrarAsistencia(eventoId, participanteId, "", 0);
    id := registro.value.id;
  }

  /** Cancels, at time 0, a registration that is not cancelled: the row
      becomes CANCELADO and its event's counter drops by one when positive. */
  method Anular(asistencias: AsistenciaService, id: int) returns (eventoId: int)
    requires asistencias.Valid() && asistencias.db.CuposCoherentes()
    requires id in asistencias.db.asistencias && asistencias.db.asistencias[id].estado != CANCELADO
    modifies asistencias.db
    ensures asistencias.Valid() && asistencias.db.CuposCoherentes()
    ensures eventoId == old(asistencias.db.asistencias[id].eventoId)
    ensures asistencias.db.asistencias
            == old(asistencias.db.asistencias)[id := old(asistencias.db.asistencias[id]).Cancelar(0)]
    ensures asistencias.db.eventos
            == old(asistencias.db.eventos)[eventoId := ConUnoMenos(old(asistencias.db.eventos[eventoId]), 0)]
    ensures asistencias.db.participantes == old(asistencias.db.participantes)
  {
    var cancelacion := asistencias.CancelarAsistencia(id, 0);
    eventoId := cancelacion.value.eventoId;
  }

  /** After one registration the counter is 1, 29 slots are left and the
      statistics show one confirmed row. */
  method RegistroYEstadisticas() returns (tras: Evento, stats: EstadisticasEvento)
    ensures tras.participantesRegistrados == 1 && tras.CuposDisponibles() == 29
    ensures stats.totalRegistrados == 1 && stats.confirmados == 1 && stats.cuposDisponibles == 29
  {
    var db, asistencias, eventoId, participanteId := Preparar(0);
    var registro := asistencias.RegistrarAsistencia(eventoId, participanteId, "Registro de prueba E2E", 0);
    tras := db.eventos[eventoId];
    var consulta := asistencias.ObtenerEstadisticas(eventoId);
    assert JA.IdsDelEvento(db.asistencias, eventoId) == {registro.value.id};
    assert JA.IdsDelEventoConEstado(db.asistencias, eventoId, CONFIRMADO) == {registro.value.id};
    stats := consulta.value;
  }

  /** A second registration of the same pair is refused, and cancelling the
      first gives the slot back. */
  method DobleRegistroYCancelacion() returns (doble: Result<Asistencia>, final: Evento)
    ensures doble == Err(BusinessRule(YaRegistrado))
    ensures final.participantesRegistrados == 0 && final.CuposDisponibles() == 30
  {
    var db, asistencias, eventoId, participanteId := Preparar(0);
    var registro := Inscribir(asistencias, eventoId, participanteId);
    assert registro in db.asistencias;
    doble := asistencias.RegistrarAsistencia(eventoId, participanteId, "Intento de doble registro", 0);
    var anulado := Anular(asistencias, registro);
    final := db.eventos[eventoId];
  }

  /** After registering and cancelling, the statistics count the cancelled
      row in the total: one row, none confirmed, one cancelled, 30 slots free. */
  method EstadisticasTrasCancelar() returns (stats: EstadisticasEvento)
    ensures stats.totalRegistrados == 1 && stats.confirmados == 0 && stats.cancelados == 1
    ensures stats.cuposDisponibles == 30
  {
    var db, asistencias, eventoId, participanteId := Preparar(0);
    var registro := Inscribir(asistencias, eventoId, participanteId);
    var anulado := Anular(asistencias, registro);
    var consulta := asistencias.ObtenerEstadisticas(eventoId);
    assert db.asistencias.Keys == {registro};
    assert JA.IdsDelEvento(db.asistencias, eventoId) == {registro};
    assert JA.IdsDelEventoConEstado(db.asistencias, eventoId, CONFIRMADO) == {};
    assert JA.IdsDelEventoConEstado(db.asistencias, eventoId, CANCELADO) == {registro};
    stats := consulta.value;
  }

  /** Two participants registered in the event of Preparar. */
  method PrepararDos()
    returns (db: Almacen, asistencias: AsistenciaService, eventoId: int, a1: int, a2: int)
    ensures fresh(db) && asistencias.db == db && asistencias.Valid() && db.CuposCoherentes()
    ensures eventoId in db.eventos && db.eventos[eventoId].participantesRegistrados == 2
    ensures db.asistencias.Keys == {a1, a2} && a1 != a2
    ensures db.asistencias[a1].eventoId == eventoId && db.asistencias[a1].estado == CONFIRMADO
    ensures db.asistencias[a2].eventoId == eventoId && db.asistencias[a2].estado == CONFIRMADO
  {
    var primero;
    db, asistencias, eventoId, primero := Preparar(0);
    var persona := Participante(0, "Ana", "Otra", "ana.e2e@example.com", "3007654321",
                                "9876543210", "CEDULA_CIUDADANIA", 0, None, {});
    var alta := asistencias.participanteService.CrearParticipante(persona, 0);
    a1 := Inscribir(asistencias, eventoId, primero);
    a2 := Inscribir(asistencias, eventoId, alta.value.id);
  }

  /** The status changes are unrestricted: a cancelled row can be marked
      ASISTIO and cancelled again, which takes a second slot off the counter.
      With two registrations, the counter ends at 0 while one row is still
      CONFIRMADO. */
  method CancelacionRepetida() returns (final: Evento, restante: Asistencia)
    ensures final.participantesRegistrados == 0
    ensures restante.eventoId == final.id && restante.estado == CONFIRMADO
  {
    var db, asistencias, eventoId, a1, a2 := PrepararDos();
    var c1 := Anular(asistencias, a1);
    var m1 := asistencias.MarcarAsistio(a1, 0);
    var c2 := Anular(asistencias, a1);
    final := db.eventos[eventoId];
    restante := db.asistencias[a2];
  }
}

/** AsistenciaService: registration of participants in events, the status
    changes of a registration, and per-event statistics. */
module AsistenciaServicio {
  import opened Resultados
  import opened ModeloEvento
  import opened ModeloAsistencia
  import opened Persistencia
  import opened EventoServicio
  import opened ParticipanteServicio
  import JA = JpaAsistenciaRepository

  /** The statistics record of one event. */
  datatype EstadisticasEvento = EstadisticasEvento(
    eventoId: int,
    nombreEvento: string,
    capacidadMaxima: int,
    totalRegistrados: int,
    confirmados: int,
    cancelados: int,
    asistieron: int,
    noAsistieron: int,
    cuposDisponibles: int,
    porcentajeOcupacion: real)

  /** The checks registrarAsistencia makes, in its order: the event exists,
      the participant exists, the event is ACTIVO, it has not finished, the
      pair has no row yet (whatever its status), and a slot is free. */
  function ReglasDeRegistro(eventos: map<int, Evento>, participantes: set<int>, asistencias: JA.Tabla,
                            eventoId: int, participanteId: int, now: int): (r: Outcome)
    ensures r.Pass? <==>
              && eventoId in eventos
              && participanteId in participantes
              && eventos[eventoId].EstaActivo()
              && !eventos[eventoId].HaFinalizado(now)
              && !JA.ExistsByEventoIdAndParticipanteId(asistencias, eventoId, participanteId)
              && eventos[eventoId].TieneCapacidadDisponible()
    ensures eventoId !in eventos ==> r == Fail(NotFound(RecursoEvento))
    ensures eventoId in eventos && participanteId !in participantes ==> r == Fail(NotFound(RecursoParticipante))
    ensures eventoId in eventos && participanteId in participantes && !eventos[eventoId].EstaActivo() ==>
              r == Fail(BusinessRule(EventoNoActivo))
    ensures eventoId in eventos && participanteId in participantes && eventos[eventoId].EstaActivo()
            && eventos[eventoId].HaFinalizado(now) ==>
              r == Fail(BusinessRule(EventoFinalizado))
    ensures r == Fail(BusinessRule(YaRegistrado)) <==>
              && eventoId in eventos && participanteId in participantes
              && eventos[eventoId].EstaActivo() && !eventos[eventoId].HaFinalizado(now)
              && JA.ExistsByEventoIdAndParticipanteId(asistencias, eventoId, participanteId)
    ensures eventoId in eventos && participanteId in participantes
            && eventos[eventoId].EstaActivo() && !eventos[eventoId].HaFinalizado(now)
            && !JA.ExistsByEventoIdAndParticipanteId(asistencias, eventoId, participanteId)
            && !eventos[eventoId].TieneCapacidadDisponible() ==>
              r == Fail(BusinessRule(CapacidadAgotada))
    ensures r == Fail(BusinessRule(CapacidadAgotada)) ==>
              !eventos[eventoId].TieneCapacidadDisponible()
              && !JA.ExistsByEventoIdAndParticipanteId(asistencias, eventoId, participanteId)
  {
    if eventoId !in eventos then Fail(NotFound(RecursoEvento))
    else if participanteId !in participantes then Fail(NotFound(RecursoParticipante))
    else if !eventos[eventoId].EstaActivo() then Fail(BusinessRule(EventoNoActivo))
    else if eventos[eventoId].HaFinalizado(now) then Fail(BusinessRule(EventoFinalizado))
    else if JA.ExistsByEventoIdAndParticipanteId(asistencias, eventoId, participanteId) then Fail(BusinessRule(YaRegistrado))
    else if !eventos[eventoId].TieneCapacidadDisponible() then Fail(BusinessRule(CapacidadAgotada))
    else Pass
  }

  /** A pair that already has a row can never be registered again, and a
      full event accepts nobody: the two guards behind the uniqueness and
      capacity invariants. */
  lemma RegistroRechazado(eventos: map<int, Evento>, participantes: set<int>, asistencias: JA.Tabla,
                          eventoId: int, participanteId: int, now: int)
    ensures JA.ExistsByEventoIdAndParticipanteId(asistencias, eventoId, participanteId) ==>
              ReglasDeRegistro(eventos, participantes, asistencias, eventoId, participanteId, now).Fail?
    ensures eventoId in eventos && !eventos[eventoId].TieneCapacidadDisponible() ==>
              ReglasDeRegistro(eventos, participantes, asistencias, eventoId, participanteId, now).Fail?
  {
  }

  /** The statistics built from an event row and the attendance table. */
  function Estadisticas(evento: Evento, asistencias: JA.Tabla): (r: EstadisticasEvento)
    ensures r.eventoId == evento.id && r.nombreEvento == evento.nombre
    ensures r.capacidadMaxima == evento.capacidadMaxima
    ensures r.totalRegistrados == |JA.FindByEventoId(asistencias, evento.id)|
    ensures r.confirmados == |JA.FindByEventoIdAndEstado(asistencias, evento.id, CONFIRMADO)|
    ensures r.cancelados == |JA.FindByEventoIdAndEstado(asistencias, evento.id, CANCELADO)|
    ensures r.asistieron == |JA.FindByEventoIdAndEstado(asistencias, evento.id, ASISTIO)|
    ensures r.noAsistieron == |JA.FindByEventoIdAndEstado(asistencias, evento.id, NO_ASISTIO)|
    ensures r.totalRegistrados
            == r.confirmados + r.cancelados + r.asistieron + r.noAsistieron
             + JA.CountByEventoIdAndEstado(asistencias, evento.id, EN_ESPERA)
    ensures r.cuposDisponibles + evento.participantesRegistrados == evento.capacidadMaxima
    ensures 0 <= evento.participantesRegistrados <= evento.capacidadMaxima ==>
              0 <= r.cuposDisponibles && 0.0 <= r.porcentajeOcupacion <= 100.0
  {
    JA.SumaDeEstados(asistencias, evento.id);
    JA.CountEsTamanoDeFind(asistencias, evento.id, CONFIRMADO);
    JA.CountEsTamanoDeFind(asistencias, evento.id, CANCELADO);
    JA.CountEsTamanoDeFind(asistencias, evento.id, ASISTIO);
    JA.CountEsTamanoDeFind(asistencias, evento.id, NO_ASISTIO);
    EstadisticasEvento(
      evento.id,
      evento.nombre,
      evento.capacidadMaxima,
      JA.CountByEventoId(asistencias, evento.id),
      JA.CountByEventoIdAndEstado(asistencias, evento.id, CONFIRMADO),
      JA.CountByEventoIdAndEstado(asistencias, evento.id, CANCELADO),
      JA.CountByEventoIdAndEstado(asistencias, evento.id, ASISTIO),
      JA.CountByEventoIdAndEstado(asistencias, evento.id, NO_ASISTIO),
      evento.CuposDisponibles(),
      evento.PorcentajeOcupacion())
  }

  class AsistenciaService {
    const db: Almacen
    const eventoService: EventoService
    const participanteService: ParticipanteService

    /** All three services work on the same store, and the store is valid. */
    ghost predicate Valid()
      reads db
    {
      eventoService.db == db && participanteService.db == db && db.Valid()
    }

    constructor (db: Almacen, eventoService: EventoService, participanteService: ParticipanteService)
      requires eventoService.db == db && participanteService.db == db
      ensures this.db == db && this.eventoService == eventoService
      ensures this.participanteService == participanteService
    {
      this.db := db;
      this.eventoService := eventoService;
      this.participanteService := participanteService;
    }

    /** Stores a CONFIRMADO row for the pair and adds one to the event's
        counter, after the checks of ReglasDeRegistro. */
    method RegistrarAsistencia(eventoId: int, participanteId: int, notas: string, now: int)
      returns (r: Result<Asistencia>)
      requires Valid()
      modifies db
      ensures Valid()
      ensures r.Ok? <==> ReglasDeRegistro(old(db.eventos), old(db.participantes.Keys), old(db.asistencias),
                                          eventoId, participanteId, now).Pass?
      ensures r.Err? ==>
                && Fail(r.error) == ReglasDeRegistro(old(db.eventos), old(db.participantes.Keys),
                                                     old(db.asistencias), eventoId, participanteId, now)
                && unchanged(db)
      ensures r.Ok? ==>
                && r.value.id !in old(db.asistencias)
                && r.value == Asistencia(r.value.id, eventoId, participanteId, now, CONFIRMADO, notas, None)
                && db.asistencias == old(db.asistencias)[r.value.id := r.value]
                && db.eventos == old(db.eventos)[eventoId := ConUnoMas(old(db.eventos[eventoId]), now)]
                && JA.CountByEventoIdAndEstado(db.asistencias, eventoId, CONFIRMADO)
                   == JA.CountByEventoIdAndEstado(old(db.asistencias), eventoId, CONFIRMADO) + 1
      ensures db.participantes == old(db.participantes)
      ensures old(db.CuposCoherentes()) ==> db.CuposCoherentes()
      ensures db.siguienteEventoId == old(db.siguienteEventoId)
      ensures db.siguienteParticipanteId == old(db.siguienteParticipanteId)
    {
      var evento := eventoService.ObtenerEventoPorId(eventoId);
      if evento.Err? {
        return Err(evento.error);
      }
      var participante := participanteService.ObtenerParticipantePorId(participanteId);
      if participante.Err? {
        return Err(participante.error);
      }
      if !evento.value.EstaActivo() {
        return Err(BusinessRule(EventoNoActivo));
      }
      if evento.value.HaFinalizado(now) {
        return Err(BusinessRule(EventoFinalizado));
      }
      if JA.ExistsByEventoIdAndParticipanteId(db.asistencias, eventoId, participanteId) {
        return Err(BusinessRule(YaRegistrado));
      }
      if !evento.value.TieneCapacidadDisponible() {
        return Err(BusinessRule(CapacidadAgotada));
      }
      var nueva := db.InsertarAsistencia(Asistencia(0, eventoId, participanteId, now, CONFIRMADO, notas, None));
      JA.CountTrasInsertar(old(db.asistencias), nueva);
      var incremento := eventoService.IncrementarParticipantes(eventoId, now);
      r := Ok(nueva);
    }

    /** Sets a registration to CANCELADO and takes one from its event's
        counter; a registration already cancelled is refused. */
    method CancelarAsistencia(asistenciaId: int, now: int) returns (r: Result<Asistencia>)
      requires Valid()
      modifies db
      ensures Valid()
      ensures asistenciaId !in old(db.asistencias) ==>
                r == Err(NotFound(RecursoAsistencia)) && unchanged(db)
      ensures asistenciaId in old(db.asistencias) && old(db.asistencias[asistenciaId].estado) == CANCELADO ==>
                r == Err(BusinessRule(YaCancelada)) && unchanged(db)
      ensures r.Ok? <==> asistenciaId in old(db.asistencias) && old(db.asistencias[asistenciaId].estado) != CANCELADO
      ensures r.Ok? ==>
                && r.value == old(db.asistencias[asistenciaId]).Cancelar(now)
                && db.asistencias == old(db.asistencias)[asistenciaId := r.value]
                && db.eventos == old(db.eventos)[r.value.eventoId := ConUnoMenos(old(db.eventos[r.value.eventoId]), now)]
                && JA.CountByEventoIdAndEstado(db.asistencias, r.value.eventoId, CANCELADO)
                   == JA.CountByEventoIdAndEstado(old(db.asistencias), r.value.eventoId, CANCELADO) + 1
                && JA.CountByEventoId(db.asistencias, r.value.eventoId)
                   == JA.CountByEventoId(old(db.asistencias), r.value.eventoId)
      ensures db.participantes == old(db.participantes)
      ensures old(db.CuposCoherentes()) ==> db.CuposCoherentes()
      ensures db.siguienteEventoId == old(db.siguienteEventoId)
      ensures db.siguienteParticipanteId == old(db.siguienteParticipanteId)
      ensures db.siguienteAsistenciaId == old(db.siguienteAsistenciaId)
    {
      var asistencia := ObtenerAsistenciaPorId(asistenciaId);
      if asistencia.Err? {
        return Err(asistencia.error);
      }
      if asistencia.value.estado == CANCELADO {
        return Err(BusinessRule(YaCancelada));
      }
      var cargada := new AsistenciaCargada(asistencia.value);
      cargada.Cancelar(now);
      var cancelada := cargada.Valor();
      JA.CountTrasCambiarEstado(db.asistencias, asistenciaId, cancelada);
      db.ActualizarAsistencia(cancelada);
      var decremento := eventoService.DecrementarParticipantes(cancelada.eventoId, now);
      r := Ok(cancelada);
    }

    /** Sets a registration to ASISTIO, whatever its status was; counters
        are not touched. */
    method MarcarAsistio(asistenciaId: int, now: int) returns (r: Result<Asistencia>)
      requires Valid()
      modifies db
      ensures Valid()
      ensures asistenciaId !in old(db.asistencias) ==>
                r == Err(NotFound(RecursoAsistencia)) && unchanged(db)
      ensures asistenciaId in old(db.asistencias) ==>
                && r == Ok(old(db.asistencias[asistenciaId]).MarcarAsistio(now))
                && db.asistencias == old(db.asistencias)[asistenciaId := r.value]
      ensures db.eventos == old(db.eventos) && db.participantes == old(db.participantes)
      ensures old(db.CuposCoherentes()) ==> db.CuposCoherentes()
      ensures db.siguienteEventoId == old(db.siguienteEventoId)
      ensures db.siguienteParticipanteId == old(db.siguienteParticipanteId)
      ensures db.siguienteAsistenciaId == old(db.siguienteAsistenciaId)
    {
      var asistencia := ObtenerAsistenciaPorId(asistenciaId);
      if asistencia.Err? {
        return Err(asistencia.error);
      }
      var cargada := new AsistenciaCargada(asistencia.value);
      cargada.MarcarAsistio(now);
      var marcada := cargada.Valor();
      db.ActualizarAsistencia(marcada);
      r := Ok(marcada);
    }

    /** Sets a registration to NO_ASISTIO, whatever its status was; counters
        are not touched. */
    method MarcarNoAsistio(asistenciaId: int, now: int) returns (r: Result<Asistencia>)
      requires Valid()
      modifies db
      ensures Valid()
      ensures asistenciaId !in old(db.asistencias) ==>
                r == Err(NotFound(RecursoAsistencia)) && unchanged(db)
      ensures asistenciaId in old(db.asistencias) ==>
                && r == Ok(old(db.asistencias[asistenciaId]).MarcarNoAsistio(now))
                && db.asistencias == old(db.asistencias)[asistenciaId := r.value]
      ensures db.eventos == old(db.eventos) && db.participantes == old(db.participantes)
      ensures old(db.CuposCoherentes()) ==> db.CuposCoherentes()
      ensures db.siguienteEventoId == old(db.siguienteEventoId)
      ensures db.siguienteParticipanteId == old(db.siguienteParticipanteId)
      ensures db.siguienteAsistenciaId == old(db.siguienteAsistenciaId)
    {
      var asistencia := ObtenerAsistenciaPorId(asistenciaId);
      if asistencia.Err? {
        return Err(asistencia.error);
      }
      var cargada := new AsistenciaCargada(asistencia.value);
      cargada.MarcarNoAsistio(now);
      var marcada := cargada.Valor();
      db.ActualizarAsistencia(marcada);
      r := Ok(marcada);
    }

    /** findById, or NotFound. */
    method ObtenerAsistenciaPorId(id: int) returns (r: Result<Asistencia>)
      requires Valid()
      ensures r.Ok? <==> id in db.asistencias
      ensures r.Ok? ==> r.value == db.asistencias[id] && r.value.id == id
      ensures r.Ok? ==> r.value.eventoId in db.eventos && r.value.participanteId in db.participantes
      ensures r.Err? ==> r.error == NotFound(RecursoAsistencia)
    {
      if id in db.asistencias {
        r := Ok(db.asistencias[id]);
      } else {
        r := Err(NotFound(RecursoAsistencia));
      }
    }

    /** The event's statistics, or NotFound when the event does not exist. */
    method ObtenerEstadisticas(eventoId: int) returns (r: Result<EstadisticasEvento>)
      requires Valid()
      ensures r.Ok? <==> eventoId in db.eventos
      ensures r.Err? ==> r.error == NotFound(RecursoEvento)
      ensures r.Ok? ==>
                && r.value.eventoId == eventoId
                && r.value.nombreEvento == db.eventos[eventoId].nombre
                && r.value.capacidadMaxima == db.eventos[eventoId].capacidadMaxima
                && r.value.totalRegistrados == JA.CountByEventoId(db.asistencias, eventoId)
                && r.value.confirmados == JA.CountByEventoIdAndEstado(db.asistencias, eventoId, CONFIRMADO)
                && r.value.cancelados == JA.CountByEventoIdAndEstado(db.asistencias, eventoId, CANCELADO)
                && r.value.asistieron == JA.CountByEventoIdAndEstado(db.asistencias, eventoId, ASISTIO)
                && r.value.noAsistieron == JA.CountByEventoIdAndEstado(db.asistencias, eventoId, NO_ASISTIO)
                && r.value.cuposDisponibles
                   == db.eventos[eventoId].capacidadMaxima - db.eventos[eventoId].participantesRegistrados
                && r.value.porcentajeOcupacion == db.eventos[eventoId].PorcentajeOcupacion()
      ensures r.Ok? && db.CuposCoherentes() ==>
                0 <= r.value.cuposDisponibles && 0.0 <= r.value.porcentajeOcupacion <= 100.0
    {
      var evento := eventoService.ObtenerEventoPorId(eventoId);
      if evento.Err? {
        return Err(evento.error);
      }
      r := Ok(Estadisticas(evento.value, db.asistencias));
    }

    /** Deletes a registration; only a CONFIRMADO one gives its slot back. */
    method EliminarAsistencia(asistenciaId: int, now: int) returns (r: Outcome)
      requires Valid()
      modifies db
      ensures Valid()
      ensures asistenciaId !in old(db.asistencias) ==>
                r == Fail(NotFound(RecursoAsistencia)) && unchanged(db)
      ensures asistenciaId in old(db.asistencias) ==>
                && r == Pass
                && db.asistencias == old(db.asistencias) - {asistenciaId}
                && var a := old(db.asistencias[asistenciaId]);
                   db.eventos == if a.estado == CONFIRMADO
                                 then old(db.eventos)[a.eventoId := ConUnoMenos(old(db.eventos[a.eventoId]), now)]
                                 else old(db.eventos)
      ensures db.participantes == old(db.participantes)
      ensures old(db.CuposCoherentes()) ==> db.CuposCoherentes()
      ensures db.siguienteEventoId == old(db.siguienteEventoId)
      ensures db.siguienteParticipanteId == old(db.siguienteParticipanteId)
      ensures db.siguienteAsistenciaId == old(db.siguienteAsistenciaId)
    {
      var asistencia := ObtenerAsistenciaPorId(asistenciaId);
      if asistencia.Err? {
        return Fail(asistencia.error);
      }
      if asistencia.value.estado == CONFIRMADO {
        var decremento := eventoService.DecrementarParticipantes(asistencia.value.eventoId, now);
      }
      db.EliminarAsistenciaPorId(asistenciaId);
      r := Pass;
    }
  }
}

/** ParticipanteService: participant CRUD with email and document uniqueness. */
module ParticipanteServicio {
  import opened Resultados
  import opened ModeloParticipante
  import opened Persistencia
  import JA = JpaAsistenciaRepository
  import JP = JpaParticipanteRepository

  class ParticipanteService {
    const db: Almacen

    constructor (db: Almacen)
      ensures this.db == db
    {
      this.db := db;
    }

    /** Email is checked before document; on success the participant is
        stored under a fresh id with creation time now. */
    method CrearParticipante(p: Participante, now: int) returns (r: Result<Participante>)
      requires db.Valid()
      modifies db
      ensures db.Valid()
      ensures JP.ExistsByEmail(old(db.participantes), p.email) ==>
                r == Err(Duplicate(Email)) && unchanged(db)
      ensures !JP.ExistsByEmail(old(db.participantes), p.email)
              && JP.ExistsByDocumento(old(db.participantes), p.documento) ==>
                r == Err(Duplicate(Documento)) && unchanged(db)
      ensures r.Ok? <==> !JP.ExistsByEmail(old(db.participantes), p.email)
                         && !JP.ExistsByDocumento(old(db.participantes), p.documento)
      ensures r.Ok? ==>
                && r.value.id !in old(db.participantes)
                && r.value == p.(id := r.value.id, fechaCreacion := now)
                && db.participantes == old(db.participantes)[r.value.id := r.value]
      ensures db.eventos == old(db.eventos) && db.asistencias == old(db.asistencias)
      ensures db.siguienteEventoId == old(db.siguienteEventoId)
      ensures db.siguienteAsistenciaId == old(db.siguienteAsistenciaId)
    {
      if JP.ExistsByEmail(db.participantes, p.email) {
        return Err(Duplicate(Email));
      }
      if JP.ExistsByDocumento(db.participantes, p.documento) {
        return Err(Duplicate(Documento));
      }
      var id := db.siguienteParticipanteId;
      var creado := p.(id := id, fechaCreacion := now);
      db.participantes := db.participantes[id := creado];
      db.siguienteParticipanteId := id + 1;
      r := Ok(creado);
    }

    /** A changed email or document must not be in use; a kept one is never
        reported as a duplicate. The row keeps its id and creation time. */
    method ActualizarParticipante(id: int, p: Participante, now: int) returns (r: Result<Participante>)
      requires db.Valid()
      modifies db
      ensures db.Valid()
      ensures id !in old(db.participantes) ==> r == Err(NotFound(RecursoParticipante)) && unchanged(db)
      ensures id in old(db.participantes) && p.email != old(db.participantes[id].email)
              && JP.ExistsByEmail(old(db.participantes), p.email) ==>
                r == Err(Duplicate(Email)) && unchanged(db)
      ensures id in old(db.participantes)
              && (p.email == old(db.participantes[id].email) || !JP.ExistsByEmail(old(db.participantes), p.email))
              && p.documento != old(db.participantes[id].documento)
              && JP.ExistsByDocumento(old(db.participantes), p.documento) ==>
                r == Err(Duplicate(Documento)) && unchanged(db)
      ensures r == Err(NotFound(RecursoParticipante)) ==> id !in old(db.participantes)
      ensures id in old(db.participantes) && p.email == old(db.participantes[id].email) ==>
                r != Err(Duplicate(Email))
      ensures id in old(db.participantes) && p.documento == old(db.participantes[id].documento) ==>
                r != Err(Duplicate(Documento))
      ensures r.Ok? <==>
                && id in old(db.participantes)
                && (p.email == old(db.participantes[id].email)
                    || !JP.ExistsByEmail(old(db.participantes), p.email))
                && (p.documento == old(db.participantes[id].documento)
                    || !JP.ExistsByDocumento(old(db.participantes), p.documento))
      ensures r == Err(Duplicate(Email)) ==>
                && p.email != old(db.participantes[id].email)
                && JP.ExistsByEmail(old(db.participantes), p.email)
      ensures r == Err(Duplicate(Documento)) ==>
                && p.documento != old(db.participantes[id].documento)
                && JP.ExistsByDocumento(old(db.participantes), p.documento)
      ensures r.Err? ==> unchanged(db)
      ensures r.Ok? ==>
                && id in old(db.participantes)
                && r.value == p.(id := id, fechaCreacion := old(db.participantes[id].fechaCreacion),
                                 fechaActualizacion := Some(now))
                && db.participantes == old(db.participantes)[id := r.value]
      ensures db.eventos == old(db.eventos) && db.asistencias == old(db.asistencias)
      ensures db.siguienteEventoId == old(db.siguienteEventoId)
      ensures db.siguienteParticipanteId == old(db.siguienteParticipanteId)
      ensures db.siguienteAsistenciaId == old(db.siguienteAsistenciaId)
    {
      var existente := ObtenerParticipantePorId(id);
      if existente.Err? {
        return Err(existente.error);
      }
      if existente.value.email != p.email && JP.ExistsByEmail(db.participantes, p.email) {
        return Err(Duplicate(Email));
      }
      if existente.value.documento != p.documento && JP.ExistsByDocumento(db.participantes, p.documento) {
        return Err(Duplicate(Documento));
      }
      var actualizado := p.(id := id, fechaCreacion := existente.value.fechaCreacion,
                            fechaActualizacion := Some(now));
      db.participantes := db.participantes[id := actualizado];
      r := Ok(actualizado);
    }

    method ObtenerParticipantePorId(id: int) returns (r: Result<Participante>)
      requires db.Valid()
      ensures r.Ok? <==> id in db.participantes
      ensures r.Ok? ==> r.value == db.participantes[id] && r.value.id == id
      ensures r.Err? ==> r.error == NotFound(RecursoParticipante)
    {
      if id in db.participantes {
        r := Ok(db.participantes[id]);
      } else {
        r := Err(NotFound(RecursoParticipante));
      }
    }

    method ObtenerParticipantePorEmail(email: string) returns (r: Result<Participante>)
      requires db.Valid()
      ensures r.Ok? <==> JP.ExistsByEmail(db.participantes, email)
      ensures r.Ok? ==> r.value.email == email && r.value.id in db.participantes
                        && db.participantes[r.value.id] == r.value
      ensures r.Err? ==> r.error == NotFound(RecursoParticipante)
    {
      var encontrado := JP.FindByEmail(db.participantes, email);
      if encontrado.None? {
        return Err(NotFound(RecursoParticipante));
      }
      r := Ok(encontrado.value);
    }

    method ObtenerParticipantePorDocumento(documento: string) returns (r: Result<Participante>)
      requires db.Valid()
      ensures r.Ok? <==> JP.ExistsByDocumento(db.participantes, documento)
      ensures r.Ok? ==> r.value.documento == documento && r.value.id in db.participantes
                        && db.participantes[r.value.id] == r.value
      ensures r.Err? ==> r.error == NotFound(RecursoParticipante)
    {
      var encontrado := JP.FindByDocumento(db.participantes, documento);
      if encontrado.None? {
        return Err(NotFound(RecursoParticipante));
      }
      r := Ok(encontrado.value);
    }

    /** Deletes the participant; the store's cascade removes their
        attendance rows (no event counter is adjusted). */
    method EliminarParticipante(id: int) returns (r: Outcome)
      requires db.Valid()
      modifies db
      ensures db.Valid()
      ensures id !in old(db.participantes) ==> r == Fail(NotFound(RecursoParticipante)) && unchanged(db)
      ensures id in old(db.participantes) ==>
                && r == Pass
                && db.participantes == old(db.participantes) - {id}
                && db.asistencias == JA.SinParticipante(old(db.asistencias), id)
                && db.eventos == old(db.eventos)
      ensures db.siguienteEventoId == old(db.siguienteEventoId)
      ensures db.siguienteParticipanteId == old(db.siguienteParticipanteId)
      ensures db.siguienteAsistenciaId == old(db.siguienteAsistenciaId)
    {
      if id !in db.participantes {
        return Fail(NotFound(RecursoParticipante));
      }
      db.participantes := db.participantes - {id};
      db.asistencias := JA.SinParticipante(db.asistencias, id);
      r := Pass;
    }
  }
}

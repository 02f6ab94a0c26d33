/** The domain entity `Participante` and its two helpers. */
module ModeloParticipante {
  import opened Resultados
  import opened ModeloAsistencia

  datatype Participante = Participante(
    id: int,
    nombre: string,
    apellido: string,
    email: string,
    telefono: string,
    documento: string,
    tipoDocumento: string,
    fechaCreacion: int,
    fechaActualizacion: Option<int>,
    asistencias: set<Asistencia>)
  {
    /** First name, one blank, last name; both parts can be read back. */
    function NombreCompleto(): (r: string)
      ensures |r| == |nombre| + |apellido| + 1
      ensures r[..|nombre|] == nombre
      ensures r[|nombre|] == ' '
      ensures r[|nombre| + 1..] == apellido
    {
      nombre + " " + apellido
    }

    /** Holds when some attendance in the participant's own set is for the
        event and CONFIRMADO. */
    function EstaRegistradoEn(eventoId: int): (r: bool)
      ensures r ==> asistencias != {}
      ensures r <==> exists a :: a in asistencias && a.eventoId == eventoId && a.EstaConfirmada()
    {
      exists a :: a in asistencias && a.eventoId == eventoId && a.estado == CONFIRMADO
    }
  }

  /** EstaRegistradoEn is exactly "a confirmed row for the event is present":
      an empty set gives false, and only a CONFIRMADO row for that event
      makes it true. */
  lemma RegistradoSoloPorConfirmadas(p: Participante, eventoId: int)
    ensures p.asistencias == {} ==> !p.EstaRegistradoEn(eventoId)
    ensures (forall a :: a in p.asistencias && a.eventoId == eventoId ==> a.estado != CONFIRMADO)
              ==> !p.EstaRegistradoEn(eventoId)
  {
  }

  /** Adding a row that is not CONFIRMADO (CANCELADO, ASISTIO, NO_ASISTIO,
      EN_ESPERA) never changes the answer; adding a confirmed row for the
      event makes it true. */
  lemma RegistradoTrasAgregar(p: Participante, a: Asistencia, eventoId: int)
    ensures a.estado != CONFIRMADO ==>
              (p.(asistencias := p.asistencias + {a}).EstaRegistradoEn(eventoId)
               <==> p.EstaRegistradoEn(eventoId))
    ensures a.estado == CONFIRMADO && a.eventoId == eventoId ==>
              p.(asistencias := p.asistencias + {a}).EstaRegistradoEn(eventoId)
  {
    var q := p.(asistencias := p.asistencias + {a});
    if a.estado != CONFIRMADO && q.EstaRegistradoEn(eventoId) {
      var b :| b in q.asistencias && b.eventoId == eventoId && b.estado == CONFIRMADO;
      assert b in p.asistencias;
    }
    if a.estado == CONFIRMADO && a.eventoId == eventoId {
      assert a in q.asistencias;
    }
  }
}

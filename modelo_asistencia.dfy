/** The domain entity `Asistencia`: one participant's registration for one
    event, and the status transitions on it. */
module ModeloAsistencia {
  import opened Resultados

  /** EN_ESPERA is declared but no operation of the core produces it. */
  datatype EstadoAsistencia = CONFIRMADO | CANCELADO | ASISTIO | NO_ASISTIO | EN_ESPERA

  datatype Asistencia = Asistencia(
    id: int,
    eventoId: int,
    participanteId: int,
    fechaRegistro: int,
    estado: EstadoAsistencia,
    notas: string,
    fechaActualizacion: Option<int>)
  {
    /** The fields a status transition must leave alone. */
    predicate MismosDatos(otra: Asistencia) {
      && id == otra.id
      && eventoId == otra.eventoId
      && participanteId == otra.participanteId
      && fechaRegistro == otra.fechaRegistro
      && notas == otra.notas
    }

    /** Common shape of the four transitions: set the status and stamp the
        update time. */
    function Transicion(nuevo: EstadoAsistencia, now: int): (r: Asistencia)
      ensures r.estado == nuevo && r.fechaActualizacion == Some(now)
      ensures r.MismosDatos(this)
    {
      this.(estado := nuevo, fechaActualizacion := Some(now))
    }

    function Confirmar(now: int): (r: Asistencia)
      ensures r.estado == CONFIRMADO && r.fechaActualizacion == Some(now)
      ensures r.MismosDatos(this)
    {
      Transicion(CONFIRMADO, now)
    }

    function Cancelar(now: int): (r: Asistencia)
      ensures r.estado == CANCELADO && r.fechaActualizacion == Some(now)
      ensures r.MismosDatos(this)
    {
      Transicion(CANCELADO, now)
    }

    function MarcarAsistio(now: int): (r: Asistencia)
      ensures r.estado == ASISTIO && r.fechaActualizacion == Some(now)
      ensures r.MismosDatos(this)
    {
      Transicion(ASISTIO, now)
    }

    function MarcarNoAsistio(now: int): (r: Asistencia)
      ensures r.estado == NO_ASISTIO && r.fechaActualizacion == Some(now)
      ensures r.MismosDatos(this)
    {
      Transicion(NO_ASISTIO, now)
    }

    /** Confirmed means none of the four other statuses. */
    function EstaConfirmada(): (r: bool)
      ensures r <==> !(estado == CANCELADO || estado == ASISTIO || estado == NO_ASISTIO || estado == EN_ESPERA)
    {
      estado == CONFIRMADO
    }
  }

  /** The domain object a service loads from the store and changes in place:
      the transitions overwrite estado and fechaActualizacion, every other
      field is fixed once the object exists. */
  class AsistenciaCargada {
    const id: int
    const eventoId: int
    const participanteId: int
    const fechaRegistro: int
    const notas: string
    var estado: EstadoAsistencia
    var fechaActualizacion: Option<int>

    constructor (a: Asistencia)
      ensures Valor() == a
    {
      id, eventoId, participanteId := a.id, a.eventoId, a.participanteId;
      fechaRegistro, notas := a.fechaRegistro, a.notas;
      estado, fechaActualizacion := a.estado, a.fechaActualizacion;
    }

    /** The row the object stands for, as saved to the store. */
    function Valor(): Asistencia
      reads this
    {
      Asistencia(id, eventoId, participanteId, fechaRegistro, estado, notas, fechaActualizacion)
    }

    method Confirmar(now: int)
      modifies this
      ensures Valor() == old(Valor()).Confirmar(now)
    {
      estado, fechaActualizacion := CONFIRMADO, Some(now);
    }

    method Cancelar(now: int)
      modifies this
      ensures Valor() == old(Valor()).Cancelar(now)
    {
      estado, fechaActualizacion := CANCELADO, Some(now);
    }

    method MarcarAsistio(now: int)
      modifies this
      ensures Valor() == old(Valor()).MarcarAsistio(now)
    {
      estado, fechaActualizacion := ASISTIO, Some(now);
    }

    method MarcarNoAsistio(now: int)
      modifies this
      ensures Valor() == old(Valor()).MarcarNoAsistio(now)
    {
      estado, fechaActualizacion := NO_ASISTIO, Some(now);
    }
  }

  /** Applying a transition twice is applying it once, at the later time:
      each transition is idempotent on the status and only the timestamp moves. */
  lemma TransicionesIdempotentes(a: Asistencia, t1: int, t2: int)
    ensures a.Confirmar(t1).Confirmar(t2) == a.Confirmar(t2)
    ensures a.Cancelar(t1).Cancelar(t2) == a.Cancelar(t2)
    ensures a.MarcarAsistio(t1).MarcarAsistio(t2) == a.MarcarAsistio(t2)
    ensures a.MarcarNoAsistio(t1).MarcarNoAsistio(t2) == a.MarcarNoAsistio(t2)
  {
  }

  /** No transition of the model leads to EN_ESPERA, and only Confirmar leads
      to a confirmed row. */
  lemma NingunaTransicionAEspera(a: Asistencia, now: int)
    ensures a.Confirmar(now).estado != EN_ESPERA
    ensures a.Cancelar(now).estado != EN_ESPERA
    ensures a.MarcarAsistio(now).estado != EN_ESPERA
    ensures a.MarcarNoAsistio(now).estado != EN_ESPERA
    ensures a.Confirmar(now).EstaConfirmada()
    ensures !a.Cancelar(now).EstaConfirmada() && !a.MarcarAsistio(now).EstaConfirmada()
    ensures !a.MarcarNoAsistio(now).EstaConfirmada()
  {
  }
}

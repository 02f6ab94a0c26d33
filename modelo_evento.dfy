/** The domain entity `Evento` and its helpers. Timestamps are integers on
    one clock; the moment "now" is always an explicit parameter. */
module ModeloEvento {
  import opened Resultados

  /** Only ACTIVO is ever inspected by the core; every other lifecycle state
      is carried under its name. */
  datatype EstadoEvento = Activo | Otro(nombre: string)

  datatype Evento = Evento(
    id: int,
    nombre: string,
    descripcion: string,
    fechaInicio: int,
    fechaFin: int,
    ubicacion: string,
    capacidadMaxima: int,
    participantesRegistrados: int,
    estado: EstadoEvento,
    fechaCreacion: int,
    fechaActualizacion: Option<int>)
  {
    /** A slot is free while the counter is below the capacity: one more
        registration still fits, and a full or overfull event has none. */
    function TieneCapacidadDisponible(): (r: bool)
      ensures r <==> participantesRegistrados + 1 <= capacidadMaxima
      ensures capacidadMaxima <= participantesRegistrados ==> !r
    {
      participantesRegistrados < capacidadMaxima
    }

    /** Only ACTIVO counts as active; every other named state does not. */
    function EstaActivo(): (r: bool)
      ensures r <==> !estado.Otro?
    {
      estado == Activo
    }

    /** Free slots: capacity minus the registered count (not clamped). */
    function CuposDisponibles(): (r: int)
      ensures r > 0 <==> TieneCapacidadDisponible()
      ensures participantesRegistrados <= capacidadMaxima ==> r >= 0
      ensures r + participantesRegistrados == capacidadMaxima
    {
      capacidadMaxima - participantesRegistrados
    }

    /** Occupancy as a percentage, 0 for a zero capacity, as
        getPorcentajeOcupacion guards against division by zero. */
    function PorcentajeOcupacion(): (r: real)
      ensures capacidadMaxima == 0 ==> r == 0.0
      ensures 0 <= participantesRegistrados <= capacidadMaxima ==> 0.0 <= r <= 100.0
      ensures capacidadMaxima != 0 ==>
                r * (capacidadMaxima as real) == (participantesRegistrados as real) * 100.0
    {
      if capacidadMaxima == 0 then 0.0
      else OcupacionAcotada(participantesRegistrados, capacidadMaxima);
           (participantesRegistrados as real) / (capacidadMaxima as real) * 100.0
    }

    /** An event is finished once now is strictly after its end; at the end
        instant itself it is not finished. */
    function HaFinalizado(now: int): (r: bool)
      ensures r <==> now >= fechaFin + 1
      ensures !r ==> now <= fechaFin
    {
      now > fechaFin
    }
  }

  /** registrados / capacidad * 100 lies in [0, 100] when 0 <= registrados <= capacidad. */
  lemma OcupacionAcotada(registrados: int, capacidad: int)
    requires capacidad != 0
    ensures 0 <= registrados <= capacidad ==>
              0.0 <= (registrados as real) / (capacidad as real) * 100.0 <= 100.0
    ensures (registrados as real) / (capacidad as real) * 100.0 * (capacidad as real)
              == (registrados as real) * 100.0
  {
    var q := (registrados as real) / (capacidad as real);
    assert q * (capacidad as real) == registrados as real;
    if 0 <= registrados <= capacidad {
      assert 0.0 <= q;
      assert q <= 1.0;
    }
  }

  /** The end instant itself still admits registrations. */
  lemma NoFinalizadoEnElFin(e: Evento)
    ensures !e.HaFinalizado(e.fechaFin)
    ensures e.HaFinalizado(e.fechaFin + 1)
  {
  }

  /** Once finished an event stays finished at every later instant. */
  lemma FinalizadoEsPermanente(e: Evento, antes: int, despues: int)
    requires antes <= despues
    ensures e.HaFinalizado(antes) ==> e.HaFinalizado(despues)
    ensures !e.HaFinalizado(despues) ==> !e.HaFinalizado(antes)
  {
  }
}

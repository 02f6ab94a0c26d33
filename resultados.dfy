/** The outcome of every core operation: a value, or one of the three error
    kinds the domain raises (`ResourceNotFoundException`,
    `BusinessRuleException`, `DuplicateResourceException`). */
module Resultados {

  datatype Option<T> = None | Some(value: T)

  /** Which table a failed lookup was made against. */
  datatype Recurso = RecursoEvento | RecursoParticipante | RecursoAsistencia

  /** The business rules the services enforce; each stands for the message
      string the services throw for it. */
  datatype Regla =
    | EventoNoActivo                 // registering in an event that is not ACTIVO
    | EventoFinalizado               // registering in an event whose end has passed
    | YaRegistrado                   // a row for (evento, participante) already exists
    | CapacidadAgotada               // no free slot left
    | YaCancelada                    // cancelling a row that is already CANCELADO
    | CapacidadMenorQueRegistrados   // new capacity below the registered count
    | InicioEnPasado                 // start date strictly before now
    | FinAntesDeInicio               // end date strictly before start date
    | CapacidadNoPositiva            // capacity zero or negative

  /** The participant field that collided. */
  datatype Campo = Email | Documento

  datatype Error =
    | NotFound(recurso: Recurso)
    | BusinessRule(regla: Regla)
    | Duplicate(campo: Campo)

  datatype Result<T> = Ok(value: T) | Err(error: Error)

  /** The result of a check that produces no value. */
  datatype Outcome = Pass | Fail(error: Error)
}

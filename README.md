# Eventia core: the attendance registration rules, in Dafny

Eventia manages events (`Evento`), participants (`Participante`) and the
attendance rows that join them (`Asistencia`). This project models the
domain layer that enforces the registration rules. It covers:

- the three services `EventoService`, `ParticipanteService` and
  `AsistenciaService`;
- the helpers on the three domain objects;
- the queries the JPA repositories declare.

The store behind the repositories is the class `Persistencia.Almacen`. It
holds one map per table, from row id to row, plus the next value of each
IDENTITY column.

`Almacen.Valid()` states the constraints the database enforces:

- every row sits under its own id;
- ids come from the IDENTITY counter;
- every attendance row references an existing event and participant
  (foreign keys);
- the unique constraints hold: `(evento_id, participante_id)`, `email` and
  `documento`.

`Almacen.CuposCoherentes()` is the capacity invariant that only the services
keep: for every event, `0 <= participantesRegistrados <= capacidadMaxima`.

Every mutating service method:

- keeps `Valid()`;
- keeps `CuposCoherentes()`;
- states its whole new store;
- leaves the store untouched when it fails.

`incrementarParticipantes` does not check capacity. Its preservation of the
capacity invariant therefore holds only when a slot was free, and
`registrarAsistencia` checks that before it calls it.

Each failure is an error value. There are three kinds, one per exception
class of the domain:

- `NotFound(RecursoEvento | RecursoParticipante | RecursoAsistencia)`;
- `BusinessRule(regla)`, where `regla` is one constructor of `Regla` per
  message string the services throw;
- `Duplicate(Email | Documento)`.

Time is an integer. Wherever the code reads `LocalDateTime.now()`, the
operation takes a parameter `now`.

Module layout:

- `resultados.dfy` holds the error and option types.
- `modelo_evento.dfy`, `modelo_asistencia.dfy` and `modelo_participante.dfy`
  hold the entities. `Asistencia` also comes as the in-place object
  `AsistenciaCargada`; its four transitions overwrite `estado` and
  `fechaActualizacion`.
- `jpa_*_repository.dfy` hold the query meanings, as functions over a table.
- `persistencia.dfy` holds the store.
- `*_service.dfy` hold the services. Each is a class over the shared store.
- `escenario.dfy` walks the end-to-end test's flow on a fresh store.

Where this README describes behaviour that the code has and that a reader
might not expect, the model follows the code:

- The status changes of an attendance are unrestricted. `marcarAsistio` and
  `marcarNoAsistio` accept any status, and `cancelarAsistencia` refuses only
  CANCELADO. A row can therefore be cancelled, marked ASISTIO and cancelled
  again, which takes one more slot off the counter. `Escenario.CancelacionRepetida`
  shows a counter of 0 while a CONFIRMADO row is still present. For this
  reason the counter is not claimed to equal the number of live rows.
- A pair that has a row in any status, CANCELADO included, cannot register
  again.
- An event whose end equals its start passes validation. An event is
  finished only once `now` is strictly after its end.
- Deleting an event or a participant removes its attendance rows through the
  JPA cascade. Deleting a participant does not give the events their slots
  back.

## Model

| member | source | states |
|---|---|---|
| ModeloEvento.Evento.CuposDisponibles | src/main/java/cue/edu/co/eventia_core_api/domain/model/Evento.java:40-56 | free slots are capacity minus registered; positive exactly when tieneCapacidadDisponible holds; never negative when registered <= capacity |
| ModeloEvento.Evento.PorcentajeOcupacion | src/main/java/cue/edu/co/eventia_core_api/domain/model/Evento.java:61-64 | 0 for a zero capacity; otherwise percentage times capacity equals registered times 100; within [0, 100] under the capacity invariant |
| ModeloEvento.Evento.TieneCapacidadDisponible | src/main/java/cue/edu/co/eventia_core_api/domain/model/Evento.java:40-42 | true exactly when one more registration still fits within the capacity; a full or overfull event has no slot |
| ModeloEvento.Evento.EstaActivo | src/main/java/cue/edu/co/eventia_core_api/domain/model/Evento.java:47-49 | true for ACTIVO and for no other lifecycle state |
| ModeloEvento.Evento.HaFinalizado | src/main/java/cue/edu/co/eventia_core_api/domain/model/Evento.java:69-71 | finished exactly from the first instant after the end; not finished means now is at or before the end |
| ModeloEvento.OcupacionAcotada | src/main/java/cue/edu/co/eventia_core_api/domain/model/Evento.java:63 | the ratio registered / capacity * 100 lies in [0, 100] when 0 <= registered <= capacity, and is exact |
| ModeloEvento.NoFinalizadoEnElFin | src/main/java/cue/edu/co/eventia_core_api/domain/model/Evento.java:69-71 | an event is not finished at its end instant and is finished one tick later |
| ModeloEvento.FinalizadoEsPermanente | src/main/java/cue/edu/co/eventia_core_api/domain/model/Evento.java:69-71 | once finished, an event stays finished at every later instant |
| ModeloAsistencia.Asistencia.Transicion | src/main/java/cue/edu/co/eventia_core_api/domain/model/Asistencia.java:31-58 | a transition sets the status and stamps the update time, leaving id, event, participant, registration time and notes as they were |
| ModeloAsistencia.Asistencia.Confirmar | src/main/java/cue/edu/co/eventia_core_api/domain/model/Asistencia.java:31-34 | the result is CONFIRMADO, stamped now, other data unchanged |
| ModeloAsistencia.Asistencia.Cancelar | src/main/java/cue/edu/co/eventia_core_api/domain/model/Asistencia.java:39-42 | the result is CANCELADO, stamped now, other data unchanged |
| ModeloAsistencia.Asistencia.MarcarAsistio | src/main/java/cue/edu/co/eventia_core_api/domain/model/Asistencia.java:47-50 | the result is ASISTIO, stamped now, other data unchanged |
| ModeloAsistencia.Asistencia.MarcarNoAsistio | src/main/java/cue/edu/co/eventia_core_api/domain/model/Asistencia.java:55-58 | the result is NO_ASISTIO, stamped now, other data unchanged |
| ModeloAsistencia.Asistencia.EstaConfirmada | src/main/java/cue/edu/co/eventia_core_api/domain/model/Asistencia.java:63-65 | true exactly when the status is none of CANCELADO, ASISTIO, NO_ASISTIO and EN_ESPERA |
| ModeloAsistencia.AsistenciaCargada.Confirmar | src/main/java/cue/edu/co/eventia_core_api/domain/model/Asistencia.java:31-34 | changing the object in place yields the row Asistencia.Confirmar describes |
| ModeloAsistencia.AsistenciaCargada.Cancelar | src/main/java/cue/edu/co/eventia_core_api/domain/model/Asistencia.java:39-42 | changing the object in place yields the row Asistencia.Cancelar describes |
| ModeloAsistencia.AsistenciaCargada.MarcarAsistio | src/main/java/cue/edu/co/eventia_core_api/domain/model/Asistencia.java:47-50 | changing the object in place yields the row Asistencia.MarcarAsistio describes |
| ModeloAsistencia.AsistenciaCargada.MarcarNoAsistio | src/main/java/cue/edu/co/eventia_core_api/domain/model/Asistencia.java:55-58 | changing the object in place yields the row Asistencia.MarcarNoAsistio describes |
| ModeloAsistencia.TransicionesIdempotentes | src/main/java/cue/edu/co/eventia_core_api/domain/model/Asistencia.java:31-58 | applying a transition twice equals applying it once at the later time |
| ModeloAsistencia.NingunaTransicionAEspera | src/main/java/cue/edu/co/eventia_core_api/domain/model/Asistencia.java:31-65 | no transition produces EN_ESPERA; only confirmar makes estaConfirmada true |
| ModeloParticipante.Participante.NombreCompleto | src/main/java/cue/edu/co/eventia_core_api/domain/model/Participante.java:38-40 | the full name is first name, one blank, last name; its length is the sum plus one and both parts can be read back |
| ModeloParticipante.Participante.EstaRegistradoEn | src/main/java/cue/edu/co/eventia_core_api/domain/model/Participante.java:45-49 | true exactly when some attendance in the participant's set is for the event and estaConfirmada; never for an empty set |
| ModeloParticipante.RegistradoSoloPorConfirmadas | src/main/java/cue/edu/co/eventia_core_api/domain/model/Participante.java:45-49 | an empty set gives false, and rows of the event that are not CONFIRMADO never make it true |
| ModeloParticipante.RegistradoTrasAgregar | src/main/java/cue/edu/co/eventia_core_api/domain/model/Participante.java:45-49 | adding a non-confirmed row does not change the answer; adding a confirmed row of the event makes it true |
| JpaAsistenciaRepository.FindByEventoId | src/main/java/cue/edu/co/eventia_core_api/infrastructure/persistence/repository/JpaAsistenciaRepository.java:19-20 | exactly the rows of the event, unchanged |
| JpaAsistenciaRepository.FindByParticipanteId | src/main/java/cue/edu/co/eventia_core_api/infrastructure/persistence/repository/JpaAsistenciaRepository.java:22-23 | exactly the rows of the participant, unchanged |
| JpaAsistenciaRepository.FindByEventoIdAndEstado | src/main/java/cue/edu/co/eventia_core_api/infrastructure/persistence/repository/JpaAsistenciaRepository.java:31-35 | exactly the rows of the event with that status |
| JpaAsistenciaRepository.CountByEventoId | src/main/java/cue/edu/co/eventia_core_api/infrastructure/persistence/repository/JpaAsistenciaRepository.java:37-38 | zero exactly when no row of the table is for the event; never above the table's size |
| JpaAsistenciaRepository.CountByEventoIdAndEstado | src/main/java/cue/edu/co/eventia_core_api/infrastructure/persistence/repository/JpaAsistenciaRepository.java:40-44 | never above the event's total count |
| JpaAsistenciaRepository.CountEsTamanoDeFind | src/main/java/cue/edu/co/eventia_core_api/infrastructure/persistence/repository/JpaAsistenciaRepository.java:19-44 | each count equals the size of the matching find |
| JpaAsistenciaRepository.SumaDeEstados | src/main/java/cue/edu/co/eventia_core_api/infrastructure/persistence/repository/JpaAsistenciaRepository.java:37-44 | the five per-status counts of an event add up to its total count |
| JpaAsistenciaRepository.CountTrasInsertar | src/main/java/cue/edu/co/eventia_core_api/infrastructure/persistence/repository/JpaAsistenciaRepository.java:37-44 | inserting a row adds one to its event's total and to its status's count, and no other status's count changes |
| JpaAsistenciaRepository.CountTrasCambiarEstado | src/main/java/cue/edu/co/eventia_core_api/infrastructure/persistence/repository/JpaAsistenciaRepository.java:37-44 | a status change moves one row from the old status's count to the new one; the total stays |
| JpaAsistenciaRepository.CountTrasQuitar | src/main/java/cue/edu/co/eventia_core_api/infrastructure/persistence/repository/JpaAsistenciaRepository.java:37-44 | deleting a row takes one from its event's total and from its status's count |
| JpaAsistenciaRepository.ExistsByEventoIdAndParticipanteId | src/main/java/cue/edu/co/eventia_core_api/infrastructure/persistence/repository/JpaAsistenciaRepository.java:46-50 | when some row of the pair exists, the event's count is not zero |
| JpaAsistenciaRepository.FindByEventoIdAndParticipanteId | src/main/java/cue/edu/co/eventia_core_api/infrastructure/persistence/repository/JpaAsistenciaRepository.java:25-50 | present exactly when existsByEventoIdAndParticipanteId holds, and then it is a stored row of that pair |
| JpaAsistenciaRepository.SinPar | src/main/java/cue/edu/co/eventia_core_api/infrastructure/persistence/repository/JpaAsistenciaRepository.java:52-56 | the delete by pair removes exactly the pair's rows and leaves every other row unchanged |
| JpaAsistenciaRepository.SinParQuitaALoSumoUna | src/main/java/cue/edu/co/eventia_core_api/infrastructure/persistence/entity/AsistenciaEntity.java:20-23 | under the pair's unique constraint the delete removes one row when the pair exists and none otherwise |
| JpaAsistenciaRepository.SinEvento | src/main/java/cue/edu/co/eventia_core_api/infrastructure/persistence/entity/EventoEntity.java:69-71 | the cascade of an event delete removes exactly that event's rows, after which its count is 0 |
| JpaAsistenciaRepository.SinParticipante | src/main/java/cue/edu/co/eventia_core_api/infrastructure/persistence/entity/ParticipanteEntity.java:67-69 | the cascade of a participant delete removes exactly that participant's rows |
| JpaEventoRepository.FindByEstado | src/main/java/cue/edu/co/eventia_core_api/infrastructure/persistence/repository/JpaEventoRepository.java:19 | exactly the events in that state |
| JpaEventoRepository.FindEventosConCapacidadDisponible | src/main/java/cue/edu/co/eventia_core_api/infrastructure/persistence/repository/JpaEventoRepository.java:24-25 | exactly the active events with a free slot; each has more than zero free slots |
| JpaEventoRepository.OrdenarPorInicio | src/main/java/cue/edu/co/eventia_core_api/infrastructure/persistence/repository/JpaEventoRepository.java:21-22 | the given ids, each exactly once (no id repeats), in ascending start order |
| JpaEventoRepository.FindEventosProximos | src/main/java/cue/edu/co/eventia_core_api/infrastructure/persistence/repository/JpaEventoRepository.java:21-22 | exactly the events starting at or after desde, sorted ascending by start; when every row is stored under its own id, no event appears twice |
| JpaParticipanteRepository.ExistsByEmail | src/main/java/cue/edu/co/eventia_core_api/infrastructure/persistence/repository/JpaParticipanteRepository.java:19 | true exactly when the email is among the values of the email column; false on an empty table |
| JpaParticipanteRepository.ExistsByDocumento | src/main/java/cue/edu/co/eventia_core_api/infrastructure/persistence/repository/JpaParticipanteRepository.java:21 | true exactly when the number is among the values of the documento column; false on an empty table |
| JpaParticipanteRepository.FindByEmail | src/main/java/cue/edu/co/eventia_core_api/infrastructure/persistence/repository/JpaParticipanteRepository.java:15 | present exactly when existsByEmail holds, and then it is the stored participant with that email |
| JpaParticipanteRepository.FindByDocumento | src/main/java/cue/edu/co/eventia_core_api/infrastructure/persistence/repository/JpaParticipanteRepository.java:17 | present exactly when existsByDocumento holds, and then it is the stored participant with that document |
| Persistencia.Almacen.Valid | src/main/java/cue/edu/co/eventia_core_api/infrastructure/persistence/entity/AsistenciaEntity.java:19-47 | the store's own constraints: each row under its IDENTITY id, below the column's counter; attendance rows reference an existing event and participant; one row per (evento, participante); and, as ParticipanteEntity.java:20-23 declares, unique email and unique documento among participants |
| Persistencia.Almacen.CuposCoherentes | src/main/java/cue/edu/co/eventia_core_api/domain/service/EventoService.java:39-85 | the capacity invariant 0 <= participantesRegistrados <= capacidadMaxima for every event, which the services keep (a new event starts at 0 with capacity > 0, an update may not go below the counter, a registration needs a free slot) rather than the store |
| Persistencia.Almacen.InsertarAsistencia | src/main/java/cue/edu/co/eventia_core_api/domain/service/AsistenciaService.java:66-74 | saving a new row gives it the next IDENTITY id and keeps every store constraint |
| Persistencia.Almacen.ActualizarAsistencia | src/main/java/cue/edu/co/eventia_core_api/domain/service/AsistenciaService.java:97-98 | saving a row over its own id replaces only that row |
| Persistencia.Almacen.EliminarAsistenciaPorId | src/main/java/cue/edu/co/eventia_core_api/domain/service/AsistenciaService.java:191 | deleteById removes only that row |
| Persistencia.Almacen.DeleteByEventoIdAndParticipanteId | src/main/java/cue/edu/co/eventia_core_api/infrastructure/persistence/repository/JpaAsistenciaRepository.java:52-56 | the table becomes SinPar of the old table, losing one row exactly when the pair existed; the other tables stay |
| EventoServicio.ValidarDatosEvento | src/main/java/cue/edu/co/eventia_core_api/domain/service/EventoService.java:176-188 | passes exactly when now <= start <= end and capacity > 0; otherwise it names the first broken rule, in the order validarDatosEvento checks them |
| EventoServicio.ConUnoMas | src/main/java/cue/edu/co/eventia_core_api/domain/service/EventoService.java:155-160 | the counter goes up by exactly one and only the counter and the update time change; a free slot before means the capacity still holds |
| EventoServicio.ConUnoMenos | src/main/java/cue/edu/co/eventia_core_api/domain/service/EventoService.java:167-174 | the counter goes down by one only when positive, otherwise the row is unchanged; it never becomes negative |
| EventoServicio.EventoService.ObtenerEventoPorId | src/main/java/cue/edu/co/eventia_core_api/domain/service/EventoService.java:88-92 | the stored event, or NotFound exactly when the id is absent |
| EventoServicio.EventoService.CrearEvento | src/main/java/cue/edu/co/eventia_core_api/domain/service/EventoService.java:39-52 | a validation failure stores nothing; otherwise a new row with a fresh id, counter 0, ACTIVO and creation time now |
| EventoServicio.EventoService.ActualizarEvento | src/main/java/cue/edu/co/eventia_core_api/domain/service/EventoService.java:63-85 | NotFound, then validation, then a capacity below the counter are refused in that order, changing nothing; it succeeds exactly when the id exists, validation passes and the new capacity is at least the stored counter; success keeps the id, counter and creation time |
| EventoServicio.EventoService.EliminarEvento | src/main/java/cue/edu/co/eventia_core_api/domain/service/EventoService.java:119-127 | NotFound for a missing id; otherwise only that event and, by cascade, its attendance rows go |
| EventoServicio.EventoService.CambiarEstadoEvento | src/main/java/cue/edu/co/eventia_core_api/domain/service/EventoService.java:131-139 | only the state and the update time of that event change |
| EventoServicio.EventoService.VerificarCapacidadDisponible | src/main/java/cue/edu/co/eventia_core_api/domain/service/EventoService.java:145-148 | true exactly when registered < capacity and ACTIVO, which is membership in findEventosConCapacidadDisponible |
| EventoServicio.EventoService.IncrementarParticipantes | src/main/java/cue/edu/co/eventia_core_api/domain/service/EventoService.java:155-160 | that event's row becomes ConUnoMas; the capacity invariant survives when a slot was free |
| EventoServicio.EventoService.DecrementarParticipantes | src/main/java/cue/edu/co/eventia_core_api/domain/service/EventoService.java:167-174 | that event's row becomes ConUnoMenos; the capacity invariant always survives |
| ParticipanteServicio.ParticipanteService.CrearParticipante | src/main/java/cue/edu/co/eventia_core_api/domain/service/ParticipanteService.java:30-46 | a used email gives Duplicate(Email) before a used document gives Duplicate(Documento); success stores a fresh row and keeps both unique |
| ParticipanteServicio.ParticipanteService.ActualizarParticipante | src/main/java/cue/edu/co/eventia_core_api/domain/service/ParticipanteService.java:50-72 | NotFound exactly for a missing id; then a changed email in use forces Duplicate(Email), then (email accepted) a changed document in use forces Duplicate(Documento), each changing nothing and each raised only in that case; success exactly when the id exists and each changed value is unused; a kept email or document is never reported; success keeps id and creation time |
| ParticipanteServicio.ParticipanteService.ObtenerParticipantePorId | src/main/java/cue/edu/co/eventia_core_api/domain/service/ParticipanteService.java:75-79 | the stored participant, or NotFound exactly when the id is absent |
| ParticipanteServicio.ParticipanteService.ObtenerParticipantePorEmail | src/main/java/cue/edu/co/eventia_core_api/domain/service/ParticipanteService.java:81-85 | the stored participant with that email, or NotFound exactly when none has it |
| ParticipanteServicio.ParticipanteService.ObtenerParticipantePorDocumento | src/main/java/cue/edu/co/eventia_core_api/domain/service/ParticipanteService.java:87-91 | the stored participant with that document, or NotFound exactly when none has it |
| ParticipanteServicio.ParticipanteService.EliminarParticipante | src/main/java/cue/edu/co/eventia_core_api/domain/service/ParticipanteService.java:101-109 | NotFound for a missing id; otherwise that participant and their attendance rows go, and no event changes |
| AsistenciaServicio.ReglasDeRegistro | src/main/java/cue/edu/co/eventia_core_api/domain/service/AsistenciaService.java:42-63 | passes exactly when all six conditions hold; otherwise it names the first one broken, in the order registrarAsistencia checks them; each of the six errors is forced once the earlier checks pass |
| AsistenciaServicio.RegistroRechazado | src/main/java/cue/edu/co/eventia_core_api/domain/service/AsistenciaService.java:56-63 | an existing row of the pair, whatever its status, or a full event always blocks registration |
| AsistenciaServicio.Estadisticas | src/main/java/cue/edu/co/eventia_core_api/domain/service/AsistenciaService.java:157-176 | total and per-status fields are the sizes of the matching finds; the total is the sum of the five statuses; free slots are capacity minus counter and, like occupancy, in range under the capacity invariant |
| AsistenciaServicio.AsistenciaService.RegistrarAsistencia | src/main/java/cue/edu/co/eventia_core_api/domain/service/AsistenciaService.java:38-81 | a failing check changes nothing; success adds one CONFIRMADO row of the pair with the notes and time now, raises that event's counter by one and its CONFIRMADO count by one, and keeps both invariants |
| AsistenciaServicio.AsistenciaService.CancelarAsistencia | src/main/java/cue/edu/co/eventia_core_api/domain/service/AsistenciaService.java:88-104 | NotFound or YaCancelada change nothing; otherwise the row becomes CANCELADO, the event's counter drops by one with a floor at 0, and the total count stays |
| AsistenciaServicio.AsistenciaService.MarcarAsistio | src/main/java/cue/edu/co/eventia_core_api/domain/service/AsistenciaService.java:111-118 | NotFound, or the row becomes ASISTIO whatever it was; no event changes |
| AsistenciaServicio.AsistenciaService.MarcarNoAsistio | src/main/java/cue/edu/co/eventia_core_api/domain/service/AsistenciaService.java:125-132 | NotFound, or the row becomes NO_ASISTIO whatever it was; no event changes |
| AsistenciaServicio.AsistenciaService.ObtenerAsistenciaPorId | src/main/java/cue/edu/co/eventia_core_api/domain/service/AsistenciaService.java:134-137 | the stored row, whose event and participant exist, or NotFound exactly when the id is absent |
| AsistenciaServicio.AsistenciaService.ObtenerEstadisticas | src/main/java/cue/edu/co/eventia_core_api/domain/service/AsistenciaService.java:154-177 | NotFound for a missing event; otherwise the event's id, name and capacity, the counts of its rows per status and in total, its free slots and its occupancy, both in range under the capacity invariant |
| AsistenciaServicio.AsistenciaService.EliminarAsistencia | src/main/java/cue/edu/co/eventia_core_api/domain/service/AsistenciaService.java:181-192 | NotFound changes nothing; otherwise the row goes, and the event's counter drops only when the row was CONFIRMADO |
| Escenario.RegistroYEstadisticas | src/test/java/cue/edu/co/eventia_core_api/e2e/EventiaCoreApiE2ETest.java:98-150 | after one registration in an event of capacity 30: counter 1, 29 free, statistics total 1 and confirmed 1 |
| Escenario.DobleRegistroYCancelacion | src/test/java/cue/edu/co/eventia_core_api/e2e/EventiaCoreApiE2ETest.java:152-197 | a second registration of the pair is refused with YaRegistrado; cancelling the first gives counter 0 and 30 free |
| Escenario.EstadisticasTrasCancelar | src/main/java/cue/edu/co/eventia_core_api/domain/service/AsistenciaService.java:157-176 | after registering and cancelling: total 1, confirmed 0, cancelled 1, 30 free |
| Escenario.CancelacionRepetida | src/main/java/cue/edu/co/eventia_core_api/domain/service/AsistenciaService.java:93-117 | cancel, mark attended and cancel again drops the counter twice: it ends at 0 while a CONFIRMADO row of the event remains |

## Left out

- Caching (`@Cacheable`, `@CacheEvict`, Redis): every read goes to the store, so the model has no stale cached values. One example is the event that `registrarAsistencia` reads through the cached `obtenerEventoPorId`.
- Transactions (`@Transactional`): each operation is all-or-nothing. It fails before it writes anything, or it makes all its writes.
- Concurrency: operations run one at a time. The race between the capacity check and the increment in `registrarAsistencia` cannot be expressed in this model.
- Logging is left out.
- The `double` arithmetic of `getPorcentajeOcupacion` is exact `real` arithmetic. IEEE rounding is not modelled.
- The `(int)` casts of the `long` counts in `obtenerEstadisticas` are not modelled, because counts are unbounded naturals. The 32-bit `Integer` fields are unbounded too.
- The store's IDENTITY counters: each mutator states which counters it leaves alone and that a create advances only its own table's counter. `Valid()` only asks that every stored id is below its counter.
- Timestamps the database fills in (`@CreationTimestamp`, `@UpdateTimestamp` on the entities) are not modelled. Each row carries the times the domain sets.
- Ids: the store hands out the next IDENTITY value on every create. An id carried by the object passed to `crearEvento` or `crearParticipante` is ignored, and so is JPA's merge of an existing id.
- `Evento.asistencias` and the entity back-references are not modelled, because no core operation reads them. `Participante.asistencias` is kept as a set for `estaRegistradoEn`. How the mappers fill it is not part of this model.
- The list-returning service methods (`obtenerTodosLosEventos`, `obtenerEventosConCapacidadDisponible`, `obtenerEventosProximos`, `obtenerEventosPorEstado`, `obtenerTodosLosParticipantes`, `obtenerAsistenciasPorEvento`, `obtenerAsistenciasPorParticipante`) only delegate to the repository queries. Those queries are the functions of the `Jpa*Repository` modules; `findAll` is the table itself.
- Persistencia.Almacen.DeleteByEventoIdAndParticipanteId: the JPQL DELETE at `JpaAsistenciaRepository.java:52-56` has no `@Modifying`, so Spring Data would not run it as a delete. The model gives the delete its intended meaning. No core service calls it.
- Unordered `List` results are sub-maps keyed by row id, so list order and duplicates are not modelled.
- JpaEventoRepository.FindEventosProximos: rows that share a start date are put in ascending id order. The query leaves their order open, so the model fixes one of the orders the database may return.
- Error messages and the exception class hierarchy are replaced by the `Error` datatype. The HTTP mapping of errors is not modelled.
- `EstadoEvento` is modelled as `Activo | Otro(name)`, because only ACTIVO is ever inspected. `tipoDocumento` is a string.
- Asistencia transitions exist twice. `ModeloAsistencia.AsistenciaCargada` changes an object in place. `ModeloAsistencia.Asistencia`'s functions give the resulting value. The services load a row into a fresh object, change it and save it. Aliases of that object outside the service are not modelled, because the mapper builds a new domain object on every read.
- Controllers, DTOs, mappers, repository adapters and the port interfaces are not part of this model.

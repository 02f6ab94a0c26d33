/** The meaning of the participant table's derived queries (existsByEmail,
    existsByDocumento, findByEmail, findByDocumento). */
module JpaParticipanteRepository {
  import opened Resultados
  import opened ModeloParticipante

  type Tabla = map<int, Participante>

  /** The storage's unique constraint on the email column. */
  ghost predicate EmailsUnicos(t: Tabla) {
    forall i, j :: i in t && j in t && t[i].email == t[j].email ==> i == j
  }

  /** The storage's unique constraint on the documento column. */
  ghost predicate DocumentosUnicos(t: Tabla) {
    forall i, j :: i in t && j in t && t[i].documento == t[j].documento ==> i == j
  }

  /** The email is one of the values in the table's email column. */
  function ExistsByEmail(t: Tabla, email: string): (r: bool)
    ensures r <==> email in (set k | k in t :: t[k].email)
    ensures t == map[] ==> !r
  {
    exists k :: k in t && t[k].email == email
  }

  /** The number is one of the values in the table's documento column. */
  function ExistsByDocumento(t: Tabla, documento: string): (r: bool)
    ensures r <==> documento in (set k | k in t :: t[k].documento)
    ensures t == map[] ==> !r
  {
    exists k :: k in t && t[k].documento == documento
  }

  /** The single participant with that email, if any. */
  function FindByEmail(t: Tabla, email: string): (r: Option<Participante>)
    requires EmailsUnicos(t)
    ensures r.Some? <==> ExistsByEmail(t, email)
    ensures r.Some? ==> r.value.email == email && exists k :: k in t && t[k] == r.value
  {
    if ExistsByEmail(t, email) then
      var k :| k in t && t[k].email == email;
      Some(t[k])
    else
      None
  }

  /** The single participant with that document number, if any. */
  function FindByDocumento(t: Tabla, documento: string): (r: Option<Participante>)
    requires DocumentosUnicos(t)
    ensures r.Some? <==> ExistsByDocumento(t, documento)
    ensures r.Some? ==> r.value.documento == documento && exists k :: k in t && t[k] == r.value
  {
    if ExistsByDocumento(t, documento) then
      var k :| k in t && t[k].documento == documento;
      Some(t[k])
    else
      None
  }
}

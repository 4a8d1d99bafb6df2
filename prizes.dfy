/** The prize-registration request and the prize record, shared by both servers. */
module Prizes {
  import opened Common

  /** The body of `POST /api/registrar-premio`; a timestamp is an integer instant. */
  datatype Request = Request(email: Option<string>, premio: Option<string>, timestamp: Option<int>)

  /** Error body of the 400 response. */
  const MissingFieldsError := "Email y premio son requeridos"

  /** Error body of the 500 response. */
  const InternalError := "Error interno del servidor"

  /** The validation both servers apply: `!email || !premio` rejects. */
  predicate HasRequiredFields(req: Request)
    ensures HasRequiredFields(req) <==>
      req.email !in {None, Some("")} && req.premio !in {None, Some("")}
  {
    Truthy(req.email) && Truthy(req.premio)
  }

  /**
   * A prize record as the Firestore server stores and returns it; the
   * notifications read its `email`, `premio` and `fechaRegistro`.
   */
  datatype Premio = Premio(
    id: string,
    email: string,
    premio: string,
    timestamp: int,
    fechaRegistro: string,
    notificado: bool)
}

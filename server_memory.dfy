/**
 * The in-memory server of server.js: the same validation as the Firestore
 * server, records appended to a process-local array, and a listing of
 * that array in insertion order. It sends no notifications.
 */
module MemoryServer {
  import opened Common
  import opened Prizes

  /**
   * A record of the in-memory server: its id is the registration instant
   * in milliseconds, and the client's timestamp is kept as sent, absent
   * or not.
   */
  datatype Registro = Registro(id: int, email: string, premio: string, timestamp: Option<int>, fechaRegistro: string)

  /** The responses of `POST /api/registrar-premio`: 400 and 200. */
  datatype Response = BadRequest(error: string) | Registered(premio: Registro)

  /** The body of `GET /api/premios`. */
  datatype Listado = Listado(total: nat, premios: seq<Registro>)

  /** The record a valid request creates at instant `now` with the formatted date `fecha`. */
  function NuevoRegistro(req: Request, now: int, fecha: string): (r: Registro)
    requires HasRequiredFields(req)
    ensures r.id == now && r.email == req.email.value && r.premio == req.premio.value
    ensures r.email != "" && r.premio != ""
    ensures r.timestamp == req.timestamp && r.fechaRegistro == fecha
  {
    Registro(now, req.email.value, req.premio.value, req.timestamp, fecha)
  }

  /** The store `premiosRegistrados` and the two endpoints that use it. */
  class PrizeRegistry {
    var premiosRegistrados: seq<Registro>

    /** Every stored record passed validation: its email and prize are non-empty. */
    ghost predicate Valid()
      reads this
    {
      forall r :: r in premiosRegistrados ==> r.email != "" && r.premio != ""
    }

    constructor ()
      ensures premiosRegistrados == [] && Valid()
    {
      premiosRegistrados := [];
    }

    /**
     * The `/api/registrar-premio` handler: an invalid request leaves the
     * store as it was; a valid one appends exactly one record and returns
     * it. Records already stored are never changed.
     */
    method RegistrarPremio(req: Request, now: int, fecha: string) returns (resp: Response)
      requires Valid()
      modifies this
      ensures Valid()
      ensures !HasRequiredFields(req) ==>
                resp == BadRequest(MissingFieldsError) && premiosRegistrados == old(premiosRegistrados)
      ensures HasRequiredFields(req) ==>
                && resp == Registered(NuevoRegistro(req, now, fecha))
                && premiosRegistrados == old(premiosRegistrados) + [resp.premio]
      ensures premiosRegistrados == Step(old(premiosRegistrados), Call(req, now, fecha))
    {
      if !(Truthy(req.email) && Truthy(req.premio)) {
        resp := BadRequest(MissingFieldsError);
        return;
      }
      var nuevoPremio := NuevoRegistro(req, now, fecha);
      premiosRegistrados := premiosRegistrados + [nuevoPremio];
      resp := Registered(nuevoPremio);
    }

    /** The `/api/premios` handler: every stored record in insertion order, and their number. */
    method ListarPremios() returns (l: Listado)
      ensures l.total == |l.premios|
      ensures l.premios == premiosRegistrados
    {
      l := Listado(|premiosRegistrados|, premiosRegistrados);
    }
  }

  /** One `POST /api/registrar-premio` call: the body, the instant it arrives and its formatted date. */
  datatype Call = Call(req: Request, now: int, fecha: string)

  predicate Accepted(c: Call) {
    HasRequiredFields(c.req)
  }

  /** The store after a run of calls, each handled in turn as `RegistrarPremio` handles it. */
  function Replay(store: seq<Registro>, calls: seq<Call>): seq<Registro>
    decreases |calls|
  {
    if calls == [] then store
    else
      Replay(Step(store, calls[0]), calls[1..])
  }

  /** The store after one call. */
  function Step(store: seq<Registro>, c: Call): (next: seq<Registro>)
    ensures |next| == |store| + (if Accepted(c) then 1 else 0)
    ensures next[..|store|] == store
    ensures forall r :: r in next ==> r in store || (r.email != "" && r.premio != "")
  {
    if Accepted(c) then store + [NuevoRegistro(c.req, c.now, c.fecha)] else store
  }

  /** A run of calls grows the store by exactly the number of accepted calls. */
  lemma {:induction false} ReplayGrows(store: seq<Registro>, calls: seq<Call>)
    ensures |Replay(store, calls)| == |store| + |Filter(calls, Accepted)|
    decreases |calls|
  {
    if calls != [] {
      var c, rest := calls[0], calls[1..];
      ReplayGrows(Step(store, c), rest);
      assert calls == [c] + rest;
      FilterAppend([c], rest, Accepted);
      FilterSnoc([], c, Accepted);
      assert [] + [c] == [c];
    }
  }

  /** A run of calls never changes the records stored before it. */
  lemma {:induction false} ReplayKeeps(store: seq<Registro>, calls: seq<Call>)
    ensures |Replay(store, calls)| >= |store|
    ensures Replay(store, calls)[..|store|] == store
    decreases |calls|
  {
    if calls != [] {
      var next := Step(store, calls[0]);
      ReplayKeeps(next, calls[1..]);
      var after := Replay(store, calls);
      assert after[..|store|] == after[..|next|][..|store|];
    }
  }

  /** A run of calls stores only records that passed validation. */
  lemma {:induction false} ReplayValid(store: seq<Registro>, calls: seq<Call>)
    requires forall r :: r in store ==> r.email != "" && r.premio != ""
    ensures forall r :: r in Replay(store, calls) ==> r.email != "" && r.premio != ""
    decreases |calls|
  {
    if calls != [] {
      ReplayValid(Step(store, calls[0]), calls[1..]);
    }
  }

  /**
   * After a run of calls the store has grown by exactly the number of
   * accepted calls, the records it held before are untouched, and every
   * record it holds passed validation.
   */
  lemma ReplayCounts(store: seq<Registro>, calls: seq<Call>)
    requires forall r :: r in store ==> r.email != "" && r.premio != ""
    ensures var after := Replay(store, calls);
      && |after| == |store| + |Filter(calls, Accepted)|
      && after[..|store|] == store
      && forall r :: r in after ==> r.email != "" && r.premio != ""
  {
    ReplayGrows(store, calls);
    ReplayKeeps(store, calls);
    ReplayValid(store, calls);
  }
}

/**
 * The Firestore server of server-firebase.js: registration of a prize
 * (validation, record construction, store write, notification pair and
 * flag update), the listing ordered by timestamp, and the statistics.
 *
 * The `premios` collection is an in-memory sequence of records; the
 * document id Firestore assigns, the clock and the locale-formatted date
 * are inputs, and so are the outcomes of the two `sendMail` calls.
 */
module FirebaseServer {
  import opened Common
  import opened Mail
  import opened Prizes
  import Notifications

  /** The server's own transporter sends without a `verify` first; its calls are traced as slot 0. */
  const ServerSlot: nat := 0

  /** The winner's notification as this server sends it: from the bare `EMAIL_USER`. */
  function WinnerMailOf(premio: Premio, env: Env): (m: Mail)
    ensures m.from == Some(env.emailUser) && m.to == premio.email && m.subject == Notifications.WinnerSubject
  {
    Notifications.WinnerMail(premio, Some(env.emailUser))
  }

  /** The administrator's notification as this server sends it: from the bare `EMAIL_USER`, to `ADMIN_EMAIL`. */
  function AdminMailOf(premio: Premio, env: Env): (m: Mail)
    ensures m.from == Some(env.emailUser) && m.to == env.adminEmail && m.subject == Notifications.AdminSubject
  {
    Notifications.AdminMail(premio, Some(env.emailUser), env.adminEmail)
  }

  /**
   * `enviarNotificaciones`: `sendMail` for the winner, then for the
   * administrator only if the first was accepted; `true` exactly when both
   * were accepted, and nothing is thrown.
   */
  function EnviarNotificaciones(premio: Premio, env: Env, winnerReply: Reply, adminReply: Reply): (r: PairResult)
    ensures r.ok <==> winnerReply.Delivered? && adminReply.Delivered?
    ensures |r.trace| == if winnerReply.Delivered? then 2 else 1
    ensures forall e :: e in r.trace ==> e.SendMail? && e.slot == ServerSlot
    ensures r.trace[0].mail == WinnerMailOf(premio, env)
    ensures r.trace[0].mail.to == premio.email && r.trace[0].mail.subject == Notifications.WinnerSubject
    ensures r.trace[0].delivered == winnerReply.Delivered?
    ensures |r.trace| == 2 ==>
              && r.trace[1].mail == AdminMailOf(premio, env)
              && r.trace[1].mail.to == env.adminEmail
              && r.trace[1].mail.subject == Notifications.AdminSubject
              && r.trace[1].delivered == adminReply.Delivered?
  {
    var usuario := SendMail(ServerSlot, WinnerMailOf(premio, env), winnerReply.Delivered?);
    if winnerReply.Failed? then PairResult(false, [usuario])
    else
      var admin := SendMail(ServerSlot, AdminMailOf(premio, env), adminReply.Delivered?);
      PairResult(adminReply.Delivered?, [usuario, admin])
  }

  /** `timestamp || new Date()`: the client's instant unless it is absent or 0, otherwise now. */
  function TimestampOrNow(timestamp: Option<int>, now: int): (t: int)
    ensures timestamp.Some? && timestamp.value != 0 ==> t == timestamp.value
    ensures timestamp.None? || timestamp.value == 0 ==> t == now
  {
    if timestamp.Some? && timestamp.value != 0 then timestamp.value else now
  }

  /**
   * The record a valid request creates, under the document id `id`:
   * the request's email and prize, the defaulted timestamp, the formatted
   * date, and `notificado` false.
   */
  function NuevoPremio(req: Request, id: string, now: int, fecha: string): (p: Premio)
    requires HasRequiredFields(req)
    ensures p.id == id && p.email == req.email.value && p.premio == req.premio.value
    ensures p.email != "" && p.premio != ""
    ensures p.timestamp == TimestampOrNow(req.timestamp, now) && p.fechaRegistro == fecha
    ensures !p.notificado
  {
    Premio(id, req.email.value, req.premio.value, TimestampOrNow(req.timestamp, now), fecha, false)
  }

  /** The responses of `POST /api/registrar-premio`: 400, 200 and 500. */
  datatype RegisterResponse =
    | BadRequest(error: string)
    | Registered(premio: Premio, notificado: bool)
    | ServerError(error: string)

  /** The Firestore-backed server; `premios` is the collection of stored records. */
  class PrizeServer {
    var premios: seq<Premio>

    /**
     * Every stored record passed validation and is still marked as not
     * notified: the handler flags only the copy it returns, never the
     * stored document.
     */
    ghost predicate Valid()
      reads this
    {
      forall p :: p in premios ==> p.email != "" && p.premio != "" && !p.notificado
    }

    constructor ()
      ensures premios == [] && Valid()
    {
      premios := [];
    }

    /**
     * The `/api/registrar-premio` handler. An invalid request is rejected
     * before anything is stored or sent. A valid one stores one record
     * with `notificado` false, sends the notification pair, and returns the
     * record with `notificado` set to what the pair returned; the stored
     * record itself is not updated. A failed store write answers 500 and
     * sends nothing.
     */
    method RegistrarPremio(
      req: Request, now: int, fecha: string, docId: string, storeUp: bool,
      env: Env, winnerReply: Reply, adminReply: Reply)
      returns (resp: RegisterResponse, trace: seq<Event>)
      requires Valid()
      modifies this
      ensures Valid()
      ensures !HasRequiredFields(req) ==>
                resp == BadRequest(MissingFieldsError) && premios == old(premios) && trace == []
      ensures HasRequiredFields(req) && !storeUp ==>
                resp == ServerError(InternalError) && premios == old(premios) && trace == []
      ensures HasRequiredFields(req) && storeUp ==>
                var stored := NuevoPremio(req, docId, now, fecha);
                var sent := EnviarNotificaciones(stored, env, winnerReply, adminReply);
                && premios == old(premios) + [stored]
                && resp == Registered(stored.(notificado := sent.ok), sent.ok)
                && trace == sent.trace
    {
      trace := [];
      if !(Truthy(req.email) && Truthy(req.premio)) {
        resp := BadRequest(MissingFieldsError);
        return;
      }
      var nuevoPremio := NuevoPremio(req, docId, now, fecha);
      if !storeUp {
        resp := ServerError(InternalError);
        return;
      }
      premios := premios + [nuevoPremio];
      var premioGuardado := nuevoPremio;
      var emailsEnviados := EnviarNotificaciones(premioGuardado, env, winnerReply, adminReply);
      if emailsEnviados.ok {
        premioGuardado := premioGuardado.(notificado := true);
      }
      resp := Registered(premioGuardado, emailsEnviados.ok);
      trace := emailsEnviados.trace;
    }

    /** `GET /api/premios` over the collection; `readUp` is whether `getDocs` succeeds. */
    method ConsultarPremios(readUp: bool) returns (r: ReadResponse<Listado>)
      ensures r == PremiosEndpoint(premios, readUp)
      ensures r.Answered? ==> multiset(r.body.premios) == multiset(premios)
    {
      r := PremiosEndpoint(premios, readUp);
    }

    /**
     * `GET /api/estadisticas` over the collection. Since no stored record
     * is ever flagged, a valid store reports no notified record and 0 %.
     */
    method ConsultarEstadisticas(hoy: int, manana: int, readUp: bool) returns (r: ReadResponse<Stats>)
      requires Valid()
      ensures r == EstadisticasEndpoint(premios, hoy, manana, readUp)
      ensures r.Answered? ==> r.body.premiosNotificados == 0 && r.body.porcentajeNotificados == 0
    {
      r := EstadisticasEndpoint(premios, hoy, manana, readUp);
      NothingStoredIsNotified(premios, hoy, manana);
    }
  }

  // ----- Listing: `GET /api/premios` -----

  /** Records in non-increasing timestamp order. */
  ghost predicate SortedDesc(ps: seq<Premio>) {
    forall i, j :: 0 <= i < j < |ps| ==> ps[i].timestamp >= ps[j].timestamp
  }

  /** Inserts `p` into a list ordered by timestamp, newest first. */
  function InsertDesc(p: Premio, ps: seq<Premio>): (r: seq<Premio>)
    requires SortedDesc(ps)
    ensures SortedDesc(r)
    ensures multiset(r) == multiset(ps) + multiset{p}
    ensures |r| > 0 && (r[0] == p || (ps != [] && r[0] == ps[0]))
  {
    if ps == [] || p.timestamp >= ps[0].timestamp then
      ConsSorted(p, ps);
      [p] + ps
    else
      var rest := InsertDesc(p, ps[1..]);
      assert ps == [ps[0]] + ps[1..];
      ConsSorted(ps[0], rest);
      [ps[0]] + rest
  }

  /** A record no older than the head of a newest-first list can be put in front of it. */
  lemma ConsSorted(p: Premio, ps: seq<Premio>)
    requires SortedDesc(ps)
    requires ps != [] ==> p.timestamp >= ps[0].timestamp
    ensures SortedDesc([p] + ps)
  {
    var r := [p] + ps;
    forall i, j | 0 <= i < j < |r| ensures r[i].timestamp >= r[j].timestamp {
      if i == 0 {
        assert r[j] == ps[j - 1];
        assert j - 1 == 0 || ps[0].timestamp >= ps[j - 1].timestamp;
      } else {
        assert r[i] == ps[i - 1] && r[j] == ps[j - 1];
      }
    }
  }

  /** The records ordered by timestamp, newest first (`orderBy('timestamp', 'desc')`). */
  function SortDesc(ps: seq<Premio>): (r: seq<Premio>)
    ensures SortedDesc(r)
    ensures multiset(r) == multiset(ps)
  {
    if ps == [] then []
    else
      assert ps == [ps[0]] + ps[1..];
      InsertDesc(ps[0], SortDesc(ps[1..]))
  }

  /** The body of `GET /api/premios`. */
  datatype Listado = Listado(total: nat, premios: seq<Premio>)

  /** The listing holds every stored record exactly once, newest first, and `total` counts them. */
  function ListarPremios(ps: seq<Premio>): (l: Listado)
    ensures l.total == |ps| == |l.premios|
    ensures SortedDesc(l.premios)
    ensures multiset(l.premios) == multiset(ps)
  {
    var premios := SortDesc(ps);
    assert |premios| == |multiset(premios)| == |multiset(ps)| == |ps|;
    Listado(|premios|, premios)
  }

  /** The answer of a read endpoint: 200 with its body, or 500 when `getDocs` fails. */
  datatype ReadResponse<T> = Answered(body: T) | ReadFailed(error: string)

  /** `GET /api/premios`: the listing when the collection can be read, otherwise the 500 body. */
  function PremiosEndpoint(ps: seq<Premio>, readUp: bool): (r: ReadResponse<Listado>)
    ensures r.Answered? <==> readUp
    ensures r.Answered? ==> r.body.total == |ps| && multiset(r.body.premios) == multiset(ps) && SortedDesc(r.body.premios)
    ensures r.ReadFailed? ==> r.error == InternalError
  {
    if readUp then Answered(ListarPremios(ps)) else ReadFailed(InternalError)
  }

  // ----- Statistics: `GET /api/estadisticas` -----

  /** `hoy <= fechaPremio && fechaPremio < mañana`: the record falls in the half-open day window. */
  predicate InDay(p: Premio, hoy: int, manana: int) {
    hoy <= p.timestamp < manana
  }

  /** `premios.filter(p => p.notificado)` */
  function Notificados(ps: seq<Premio>): (r: seq<Premio>)
    ensures |r| <= |ps|
    ensures forall p :: p in r <==> p in ps && p.notificado
  {
    Filter(ps, (p: Premio) => p.notificado)
  }

  /** The records of the day that starts at `hoy` and ends before `manana`. */
  function DeHoy(ps: seq<Premio>, hoy: int, manana: int): (r: seq<Premio>)
    ensures |r| <= |ps|
    ensures forall p :: p in r <==> p in ps && InDay(p, hoy, manana)
  {
    Filter(ps, (p: Premio) => InDay(p, hoy, manana))
  }

  /**
   * `Math.round((notificados / total) * 100)`, or 0 without records: the
   * integer nearest to 100·notificados/total, halves rounded up.
   */
  function Porcentaje(notificados: nat, total: nat): (pct: int)
    ensures total == 0 ==> pct == 0
    ensures total > 0 ==> 2 * total * pct - total <= 200 * notificados < 2 * total * pct + total
    ensures notificados <= total ==> 0 <= pct <= 100
  {
    if total == 0 then 0
    else
      var d := 2 * total;
      var x := 200 * notificados + total;
      var q := x / d;
      assert x == d * q + x % d && 0 <= x % d < d;
      assert 0 <= q by {
        if q < 0 { MulNegative(d, q); }
      }
      assert notificados <= total ==> q <= 100 by {
        if notificados <= total && q > 100 { MulAtLeast(d, q, 101); }
      }
      q
  }

  lemma MulNegative(d: int, q: int)
    requires d > 0 && q < 0
    ensures d * q <= -d
  {
  }

  lemma MulAtLeast(d: int, q: int, m: int)
    requires d > 0 && q >= m
    ensures d * q >= d * m
  {
  }

  /** The body of `GET /api/estadisticas`. */
  datatype Stats = Stats(totalPremios: nat, premiosNotificados: nat, premiosHoy: nat, porcentajeNotificados: int)

  /**
   * The statistics over the stored records: totals that never exceed the
   * number of records, and a percentage within [0, 100] that is 0 when
   * nothing is stored.
   */
  function Estadisticas(ps: seq<Premio>, hoy: int, manana: int): (s: Stats)
    ensures s.totalPremios == |ps|
    ensures s.premiosNotificados == |Notificados(ps)| <= s.totalPremios
    ensures s.premiosHoy == |DeHoy(ps, hoy, manana)| <= s.totalPremios
    ensures s.porcentajeNotificados == Porcentaje(s.premiosNotificados, s.totalPremios)
    ensures 0 <= s.porcentajeNotificados <= 100
    ensures s.totalPremios == 0 ==> s.porcentajeNotificados == 0
  {
    var totalPremios := |ps|;
    var premiosNotificados := |Notificados(ps)|;
    Stats(totalPremios, premiosNotificados, |DeHoy(ps, hoy, manana)|, Porcentaje(premiosNotificados, totalPremios))
  }

  /** `GET /api/estadisticas`: the statistics when the collection can be read, otherwise the 500 body. */
  function EstadisticasEndpoint(ps: seq<Premio>, hoy: int, manana: int, readUp: bool): (r: ReadResponse<Stats>)
    ensures r.Answered? <==> readUp
    ensures r.Answered? ==> r.body.totalPremios == |ps| && 0 <= r.body.porcentajeNotificados <= 100
    ensures r.Answered? ==> r.body == Estadisticas(ps, hoy, manana)
    ensures r.ReadFailed? ==> r.error == InternalError
  {
    if readUp then Answered(Estadisticas(ps, hoy, manana)) else ReadFailed(InternalError)
  }

  /** No notified record means a notified percentage of 0, whatever the total. */
  lemma PorcentajeOfNone(total: nat)
    ensures Porcentaje(0, total) == 0
  {
    var pct := Porcentaje(0, total);
    if total > 0 {
      if pct >= 1 {
        MulAtLeast(2 * total, pct, 1);
      } else if pct < 0 {
        MulNegative(2 * total, pct);
      }
    }
  }

  /**
   * The registration handler never flags a stored record, so statistics
   * over a store it built report no notified record and 0 %, whatever
   * the notifications did.
   */
  lemma NothingStoredIsNotified(ps: seq<Premio>, hoy: int, manana: int)
    requires forall p :: p in ps ==> !p.notificado
    ensures Estadisticas(ps, hoy, manana).premiosNotificados == 0
    ensures Estadisticas(ps, hoy, manana).porcentajeNotificados == 0
  {
    FilterNone(ps, (p: Premio) => p.notificado);
    PorcentajeOfNone(|ps|);
  }

  /**
   * `premiosHoy` (the length of `DeHoy`) counts exactly the positions
   * whose record lies in [hoy, manana).
   */
  lemma PremiosHoyExact(ps: seq<Premio>, hoy: int, manana: int)
    ensures |DeHoy(ps, hoy, manana)| == |set i | 0 <= i < |ps| && InDay(ps[i], hoy, manana)|
  {
    var f := (p: Premio) => InDay(p, hoy, manana);
    FilterCount(ps, f);
    assert Positions(ps, f) == set i | 0 <= i < |ps| && InDay(ps[i], hoy, manana);
  }

  /**
   * A record inside the day window is counted as often as it is stored,
   * one outside it never.
   */
  lemma PremiosHoyMultiplicity(ps: seq<Premio>, hoy: int, manana: int)
    ensures forall p :: multiset(DeHoy(ps, hoy, manana))[p] == if InDay(p, hoy, manana) then multiset(ps)[p] else 0
  {
    FilterMultiset(ps, (p: Premio) => InDay(p, hoy, manana));
  }

  /** `premiosNotificados` (the length of `Notificados`) counts exactly the positions holding a notified record. */
  lemma PremiosNotificadosExact(ps: seq<Premio>)
    ensures |Notificados(ps)| == |set i | 0 <= i < |ps| && ps[i].notificado|
  {
    var f := (p: Premio) => p.notificado;
    FilterCount(ps, f);
    assert Positions(ps, f) == set i | 0 <= i < |ps| && ps[i].notificado;
  }
}

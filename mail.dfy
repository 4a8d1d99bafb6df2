/**
 * Outbound messages, the outcomes of provider calls, and the trace of
 * provider calls that every dispatch operation reports.
 *
 * Provider calls (`transporter.verify()`, `transporter.sendMail(...)`,
 * `sgMail.send(...)`) are not executed by the model: their outcomes are
 * inputs, so every decision the services take is a function of them.
 */
module Mail {
  import opened Common

  /** Process-wide configuration (`process.env`); an unset variable is "". */
  datatype Env = Env(emailUser: string, emailFrom: string, adminEmail: string)

  /** A nodemailer message; `from`, `html` and `text` may be absent. */
  datatype Mail = Mail(from: Option<string>, to: string, subject: string, html: Option<string>, text: Option<string>)

  /** The `from` object of a SendGrid message. */
  datatype Sender = Sender(email: string, name: string)

  /** The message handed to `sgMail.send`. */
  datatype SgMessage = SgMessage(to: string, from: Sender, subject: string, html: Option<string>, text: string)

  /** Outcome of `transporter.verify()`: resolves, or rejects with an error message. */
  datatype Status = Up | Down(msg: string)

  /** Outcome of one send call: the provider's message id, or the error's message. */
  datatype Reply = Delivered(messageId: string) | Failed(msg: string)

  /** What one SMTP transporter does when it is tried for one message. */
  datatype Attempt = Attempt(verify: Status, send: Reply)

  /** The behaviour of the transporter list for one message: `probe(i)` is what transporter `i` does. */
  type Probe = nat -> Attempt

  /** One provider call, in the order the code makes them. */
  datatype Event =
    | Verify(slot: nat, ok: bool)
    | SendMail(slot: nat, mail: Mail, delivered: bool)
    | SendGridSend(message: SgMessage, delivered: bool)

  /**
   * How an `enviarEmail` call ends: it resolves to `{success, messageId, transporter}`,
   * it throws an `Error` with a message, or it resolves to `undefined`.
   */
  datatype SendOutcome = Sent(messageId: string, transporter: string) | Threw(message: string) | NoResult

  /** The outcome of one `enviarEmail` call with the provider calls it made. */
  datatype Dispatch = Dispatch(outcome: SendOutcome, trace: seq<Event>)

  /** The boolean an `enviarNotificaciones` call returns, with the provider calls it made. */
  datatype PairResult = PairResult(ok: bool, trace: seq<Event>)

  /** The address a send event targets; `None` for a connection check. */
  function Recipient(e: Event): Option<string> {
    match e
    case Verify(_, _) => None
    case SendMail(_, m, _) => Some(m.to)
    case SendGridSend(m, _) => Some(m.to)
  }

  /** `e` is a send that the provider accepted for `addr`. */
  predicate IsDeliveryTo(e: Event, addr: string) {
    !e.Verify? && e.delivered && Recipient(e) == Some(addr)
  }

  /** How many accepted sends to `addr` the trace holds. */
  function Deliveries(t: seq<Event>, addr: string): nat {
    |Filter(t, e => IsDeliveryTo(e, addr))|
  }

  /** How many times the trace calls SendGrid. */
  function SendGridCalls(t: seq<Event>): nat {
    |Filter(t, (e: Event) => e.SendGridSend?)|
  }

  /** Deliveries of two consecutive traces add up. */
  lemma DeliveriesAppend(a: seq<Event>, b: seq<Event>, addr: string)
    ensures Deliveries(a + b, addr) == Deliveries(a, addr) + Deliveries(b, addr)
  {
    FilterAppend(a, b, e => IsDeliveryTo(e, addr));
  }

  /** SendGrid calls of two consecutive traces add up. */
  lemma SendGridCallsAppend(a: seq<Event>, b: seq<Event>)
    ensures SendGridCalls(a + b) == SendGridCalls(a) + SendGridCalls(b)
  {
    FilterAppend(a, b, (e: Event) => e.SendGridSend?);
  }

  /** An accepted send to `addr` in the trace is counted. */
  lemma DeliveryCounted(t: seq<Event>, e: Event, addr: string)
    requires e in t && IsDeliveryTo(e, addr)
    ensures Deliveries(t, addr) >= 1
  {
    FilterKeeps(t, e => IsDeliveryTo(e, addr), e);
  }
}

/**
 * The SendGrid adapter of sendgrid-service.js: it maps a message to the
 * shape `sgMail.send` takes, reports the provider's message id on success
 * and rethrows a failure unchanged. The service keeps no state, so its
 * operations are functions of the message, the configuration and the
 * provider's reply.
 */
module SendGrid {
  import opened Common
  import opened Mail
  import opened Prizes
  import Notifications

  const ProviderName := "SendGrid"
  const SenderName := "Glampling"

  /** `EMAIL_FROM || EMAIL_USER`: the configured sender, falling back to the SMTP user. */
  function SenderAddress(env: Env): (a: string)
    ensures env.emailFrom != "" ==> a == env.emailFrom
    ensures env.emailFrom == "" ==> a == env.emailUser
  {
    if env.emailFrom != "" then env.emailFrom else env.emailUser
  }

  /**
   * The message `enviarEmail` hands to `sgMail.send`: recipient, subject
   * and HTML body copied, the sender fixed by the configuration, and a
   * plain-text body that falls back to the subject when none is given.
   */
  function ToSendGrid(emailData: Mail, env: Env): (msg: SgMessage)
    ensures msg.to == emailData.to && msg.subject == emailData.subject && msg.html == emailData.html
    ensures msg.from == Sender(SenderAddress(env), SenderName)
    ensures msg.from.email == env.emailFrom || msg.from.email == env.emailUser
    ensures msg.from.email == "" ==> env.emailFrom == "" && env.emailUser == ""
    ensures Truthy(emailData.text) ==> msg.text == emailData.text.value
    ensures !Truthy(emailData.text) ==> msg.text == emailData.subject
    ensures msg.text == "" <==> emailData.subject == "" && !Truthy(emailData.text)
  {
    SgMessage(
      emailData.to,
      Sender(SenderAddress(env), SenderName),
      emailData.subject,
      emailData.html,
      if Truthy(emailData.text) then emailData.text.value else emailData.subject)
  }

  /**
   * `enviarEmail`: exactly one call to SendGrid; on success the result
   * names SendGrid and carries the `x-message-id` the provider returned,
   * on failure the provider's error is rethrown with its message unchanged.
   */
  function EnviarEmail(emailData: Mail, env: Env, reply: Reply): (d: Dispatch)
    ensures d.outcome.Sent? <==> reply.Delivered?
    ensures reply.Delivered? ==> d.outcome == Sent(reply.messageId, ProviderName)
    ensures reply.Failed? ==> d.outcome == Threw(reply.msg)
    ensures |d.trace| == 1 && d.trace[0].SendGridSend? && d.trace[0].message == ToSendGrid(emailData, env)
    ensures d.trace[0].delivered == reply.Delivered?
  {
    var msg := ToSendGrid(emailData, env);
    var event := SendGridSend(msg, reply.Delivered?);
    match reply
    case Delivered(id) => Dispatch(Sent(id, ProviderName), [event])
    case Failed(error) => Dispatch(Threw(error), [event])
  }

  /** The winner's notification as this service builds it: no `from`, which `ToSendGrid` supplies. */
  function WinnerMailOf(premio: Premio): (m: Mail)
    ensures m.from == None && m.to == premio.email && m.subject == Notifications.WinnerSubject
  {
    Notifications.WinnerMail(premio, None)
  }

  /** The administrator's notification as this service builds it: no `from`, to `ADMIN_EMAIL`. */
  function AdminMailOf(premio: Premio, env: Env): (m: Mail)
    ensures m.from == None && m.to == env.adminEmail && m.subject == Notifications.AdminSubject
  {
    Notifications.AdminMail(premio, None, env.adminEmail)
  }

  /**
   * `enviarNotificaciones`: the winner's message is sent first, the
   * administrator's only if that succeeded; the result is `true` exactly
   * when both were accepted, and nothing is thrown.
   */
  function EnviarNotificaciones(premio: Premio, env: Env, winnerReply: Reply, adminReply: Reply): (r: PairResult)
    ensures r.ok <==> winnerReply.Delivered? && adminReply.Delivered?
    ensures |r.trace| == if winnerReply.Delivered? then 2 else 1
    ensures forall e :: e in r.trace ==> e.SendGridSend?
    ensures r.trace[0].message == ToSendGrid(WinnerMailOf(premio), env)
    ensures r.trace[0].message.to == premio.email && r.trace[0].message.subject == Notifications.WinnerSubject
    ensures r.trace[0].delivered == winnerReply.Delivered?
    ensures |r.trace| == 2 ==>
              && r.trace[1].message == ToSendGrid(AdminMailOf(premio, env), env)
              && r.trace[1].message.to == env.adminEmail
              && r.trace[1].message.subject == Notifications.AdminSubject
              && r.trace[1].delivered == adminReply.Delivered?
  {
    var usuario := EnviarEmail(WinnerMailOf(premio), env, winnerReply);
    if usuario.outcome.Threw? then PairResult(false, usuario.trace)
    else
      var admin := EnviarEmail(AdminMailOf(premio, env), env, adminReply);
      PairResult(!admin.outcome.Threw?, usuario.trace + admin.trace)
  }

  /**
   * Both SendGrid notifications show the prize label and its date, the
   * administrator's also the winner's email, and neither has a text body
   * of its own, so SendGrid's plain-text part is the subject.
   */
  lemma NotificationContents(premio: Premio, env: Env)
    ensures var w := ToSendGrid(WinnerMailOf(premio), env);
      && w.html.Some? && Contains(w.html.value, premio.premio) && Contains(w.html.value, premio.fechaRegistro)
      && w.text == Notifications.WinnerSubject
    ensures var a := ToSendGrid(AdminMailOf(premio, env), env);
      && a.html.Some? && Contains(a.html.value, premio.email)
      && Contains(a.html.value, premio.premio) && Contains(a.html.value, premio.fechaRegistro)
      && a.text == Notifications.AdminSubject
  {
  }
}

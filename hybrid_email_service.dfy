/**
 * The two-tier service of hybrid-email-service.js: the whole Gmail
 * waterfall is tried as one unit, then SendGrid as one unit, both for a
 * single message and for the notification pair, plus a diagnostics
 * routine that probes both tiers and always returns a report.
 */
module Hybrid {
  import opened Common
  import opened Mail
  import opened Prizes
  import Waterfall
  import SendGrid

  const BothFailedError := "Ambos servicios de email fallaron"

  /**
   * What the hybrid `enviarNotificaciones` returns, with its provider
   * calls: the Gmail-tier pair first, and the SendGrid-tier pair only when
   * that returned `false`.
   */
  function HybridPair(
    ts: seq<Waterfall.TransporterConfig>, premio: Premio, env: Env,
    gmailWinner: Probe, gmailAdmin: Probe, sgWinner: Reply, sgAdmin: Reply): (r: PairResult)
    ensures var gmail := Waterfall.SmtpPair(ts, premio, env, gmailWinner, gmailAdmin);
      && |r.trace| >= |gmail.trace| && r.trace[..|gmail.trace|] == gmail.trace
      && (gmail.ok ==> r == gmail)
      && (!gmail.ok ==> r.trace[|gmail.trace|..] == SendGrid.EnviarNotificaciones(premio, env, sgWinner, sgAdmin).trace)
  {
    var gmail := Waterfall.SmtpPair(ts, premio, env, gmailWinner, gmailAdmin);
    if gmail.ok then gmail
    else
      var sendgrid := SendGrid.EnviarNotificaciones(premio, env, sgWinner, sgAdmin);
      PairResult(sendgrid.ok, gmail.trace + sendgrid.trace)
  }

  /**
   * The hybrid pair succeeds when either tier's pair succeeds and fails
   * only when both do; SendGrid is called exactly when the Gmail tier
   * returned `false`, once or twice.
   */
  lemma HybridPairFallback(
    ts: seq<Waterfall.TransporterConfig>, premio: Premio, env: Env,
    gmailWinner: Probe, gmailAdmin: Probe, sgWinner: Reply, sgAdmin: Reply)
    ensures var gmail := Waterfall.SmtpPair(ts, premio, env, gmailWinner, gmailAdmin);
      var sendgrid := SendGrid.EnviarNotificaciones(premio, env, sgWinner, sgAdmin);
      var r := HybridPair(ts, premio, env, gmailWinner, gmailAdmin, sgWinner, sgAdmin);
      && (r.ok <==> gmail.ok || sendgrid.ok)
      && (gmail.ok ==> SendGridCalls(r.trace) == 0)
      && (!gmail.ok ==> SendGridCalls(r.trace) == (if sgWinner.Delivered? then 2 else 1))
  {
    var gmail := Waterfall.SmtpPair(ts, premio, env, gmailWinner, gmailAdmin);
    var sendgrid := SendGrid.EnviarNotificaciones(premio, env, sgWinner, sgAdmin);
    var w := Waterfall.WinnerMailOf(premio, env);
    var a := Waterfall.AdminMailOf(premio, env);
    var wt := Waterfall.CallTrace(w, gmailWinner, |ts|);
    var at := Waterfall.CallTrace(a, gmailAdmin, |ts|);
    Waterfall.NoSendGridInWaterfall(w, gmailWinner, Waterfall.Contacted(gmailWinner, |ts|));
    Waterfall.NoSendGridInWaterfall(a, gmailAdmin, Waterfall.Contacted(gmailAdmin, |ts|));
    SendGridCallsAppend(wt, at);
    assert SendGridCalls(gmail.trace) == 0;
    if !gmail.ok {
      SendGridCallsAppend(gmail.trace, sendgrid.trace);
      assert Filter(sendgrid.trace, (e: Event) => e.SendGridSend?) == sendgrid.trace by {
        FilterAll(sendgrid.trace, (e: Event) => e.SendGridSend?);
      }
    }
  }

  /** A waterfall followed by a single SendGrid call calls SendGrid once. */
  lemma OneSendGridCallAfterWaterfall(mail: Mail, probe: Probe, n: nat, sendgrid: seq<Event>)
    requires |sendgrid| == 1 && sendgrid[0].SendGridSend?
    ensures SendGridCalls(Waterfall.CallTrace(mail, probe, n) + sendgrid) == 1
  {
    Waterfall.NoSendGridInWaterfall(mail, probe, Waterfall.Contacted(probe, n));
    SendGridCallsAppend(Waterfall.CallTrace(mail, probe, n), sendgrid);
    assert sendgrid[0] in sendgrid;
    FilterAll(sendgrid, (e: Event) => e.SendGridSend?);
  }

  /**
   * A Gmail-tier partial success (the winner's message accepted, the
   * administrator's not) makes the SendGrid tier send both messages again,
   * so the winner receives the prize message twice when SendGrid accepts it.
   */
  lemma PartialGmailSuccessDeliversTwice(
    ts: seq<Waterfall.TransporterConfig>, premio: Premio, env: Env,
    gmailWinner: Probe, gmailAdmin: Probe, sgWinner: Reply, sgAdmin: Reply)
    requires Waterfall.WaterfallOutcome(ts, gmailWinner).Sent?
    requires Waterfall.WaterfallOutcome(ts, gmailAdmin).Threw?
    requires sgWinner.Delivered?
    ensures !Waterfall.SmtpPair(ts, premio, env, gmailWinner, gmailAdmin).ok
    ensures Deliveries(HybridPair(ts, premio, env, gmailWinner, gmailAdmin, sgWinner, sgAdmin).trace, premio.email) >= 2
  {
    var w := Waterfall.WinnerMailOf(premio, env);
    var wt := Waterfall.CallTrace(w, gmailWinner, |ts|);
    var at := Waterfall.CallTrace(Waterfall.AdminMailOf(premio, env), gmailAdmin, |ts|);
    var gmail := Waterfall.SmtpPair(ts, premio, env, gmailWinner, gmailAdmin);
    assert gmail == PairResult(false, wt + at);
    var sendgrid := SendGrid.EnviarNotificaciones(premio, env, sgWinner, sgAdmin);
    assert HybridPair(ts, premio, env, gmailWinner, gmailAdmin, sgWinner, sgAdmin).trace == gmail.trace + sendgrid.trace;
    assert Deliveries(wt, premio.email) >= 1 by {
      Waterfall.SentMeansDelivered(ts, w, gmailWinner);
      DeliveryCounted(wt, SendMail(Waterfall.FirstSuccess(gmailWinner, |ts|, 0), w, true), premio.email);
    }
    assert Deliveries(sendgrid.trace, premio.email) >= 1 by {
      var e := sendgrid.trace[0];
      assert e in sendgrid.trace && IsDeliveryTo(e, premio.email);
      DeliveryCounted(sendgrid.trace, e, premio.email);
    }
    DeliveriesAppend(wt, at, premio.email);
    DeliveriesAppend(gmail.trace, sendgrid.trace, premio.email);
  }

  /** One tier's line of the diagnostics report. */
  datatype TierReport = TierReport(funciona: bool, error: Option<string>)

  /** The object `diagnosticar` returns. */
  datatype Report = Report(gmail: TierReport, sendgrid: TierReport)

  /** The test message `diagnosticar` sends through the Gmail tier. */
  function GmailTestMail(env: Env): (m: Mail)
    ensures m.to == env.adminEmail && m.subject == "Test Gmail" && m.text == Some("Test") && m.html == None
    ensures m.from.Some? && |m.from.value| == |env.emailUser| + 9 && m.from.value[1..5] == "Test" && m.from.value[8..|m.from.value| - 1] == env.emailUser
  {
    Mail(Some("\"Test\" <" + env.emailUser + ">"), env.adminEmail, "Test Gmail", None, Some("Test"))
  }

  /** The test message `diagnosticar` sends through SendGrid. */
  function SendGridTestMail(env: Env): (m: Mail)
    ensures m.from == None && m.to == env.adminEmail && m.subject == "Test SendGrid"
    ensures m.text == Some("Test") && m.html == None
  {
    Mail(None, env.adminEmail, "Test SendGrid", None, Some("Test"))
  }

  /** The hybrid email service: a Gmail waterfall service, with SendGrid as the second tier. */
  class HybridEmailService {
    const gmailService: Waterfall.EmailService

    constructor ()
      ensures fresh(gmailService)
      ensures gmailService.transporters == Waterfall.DefaultTransporters()
    {
      gmailService := new Waterfall.EmailService();
    }

    /**
     * Gmail first: its result is returned as it is unless it throws, and
     * only then is SendGrid called, once; if SendGrid also throws, the
     * error says both services failed.
     */
    method EnviarEmail(emailData: Mail, env: Env, gmailProbe: Probe, sendgridReply: Reply)
      returns (r: SendOutcome, trace: seq<Event>)
      ensures var gmail := Waterfall.WaterfallOutcome(gmailService.transporters, gmailProbe);
        && (!gmail.Threw? ==> r == gmail && SendGridCalls(trace) == 0)
        && (gmail.Threw? ==> SendGridCalls(trace) == 1)
        && (gmail.Threw? && sendgridReply.Delivered? ==> r == Sent(sendgridReply.messageId, SendGrid.ProviderName))
        && (gmail.Threw? && sendgridReply.Failed? ==> r == Threw(BothFailedError))
      ensures trace == Waterfall.CallTrace(emailData, gmailProbe, |gmailService.transporters|) +
        if Waterfall.WaterfallOutcome(gmailService.transporters, gmailProbe).Threw?
        then SendGrid.EnviarEmail(emailData, env, sendgridReply).trace
        else []
    {
      var gmailTrace: seq<Event>;
      r, gmailTrace := gmailService.EnviarEmail(emailData, gmailProbe);
      Waterfall.NoSendGridInWaterfall(emailData, gmailProbe, Waterfall.Contacted(gmailProbe, |gmailService.transporters|));
      if !r.Threw? {
        return r, gmailTrace;
      }
      var sendgrid := SendGrid.EnviarEmail(emailData, env, sendgridReply);
      trace := gmailTrace + sendgrid.trace;
      OneSendGridCallAfterWaterfall(emailData, gmailProbe, |gmailService.transporters|, sendgrid.trace);
      if sendgrid.outcome.Threw? {
        r := Threw(BothFailedError);
      } else {
        r := sendgrid.outcome;
      }
    }

    /**
     * The Gmail-tier pair first; when it returns `false`, the SendGrid-tier
     * pair; `false` only when both tiers return `false`. Never throws.
     */
    method EnviarNotificaciones(
      premio: Premio, env: Env, gmailWinner: Probe, gmailAdmin: Probe, sgWinner: Reply, sgAdmin: Reply)
      returns (ok: bool, trace: seq<Event>)
      ensures PairResult(ok, trace) == HybridPair(gmailService.transporters, premio, env, gmailWinner, gmailAdmin, sgWinner, sgAdmin)
    {
      var resultado, gmailTrace := gmailService.EnviarNotificaciones(premio, env, gmailWinner, gmailAdmin);
      if resultado {
        return true, gmailTrace;
      }
      var sendgrid := SendGrid.EnviarNotificaciones(premio, env, sgWinner, sgAdmin);
      ok := sendgrid.ok;
      trace := gmailTrace + sendgrid.trace;
    }

    /**
     * Sends a test message through each tier and reports, per tier,
     * whether it worked or the error it threw; SendGrid is probed whatever
     * Gmail did, and the routine never throws.
     */
    method Diagnosticar(env: Env, gmailProbe: Probe, sendgridReply: Reply)
      returns (resultados: Report, trace: seq<Event>)
      ensures var gmail := Waterfall.WaterfallOutcome(gmailService.transporters, gmailProbe);
        && resultados.gmail.funciona == !gmail.Threw?
        && resultados.gmail.error == (if gmail.Threw? then Some(gmail.message) else None)
      ensures resultados.sendgrid.funciona == sendgridReply.Delivered?
      ensures resultados.sendgrid.error == (if sendgridReply.Failed? then Some(sendgridReply.msg) else None)
      ensures resultados.gmail.funciona <==> resultados.gmail.error.None?
      ensures resultados.sendgrid.funciona <==> resultados.sendgrid.error.None?
      ensures SendGridCalls(trace) == 1
      ensures trace == Waterfall.CallTrace(GmailTestMail(env), gmailProbe, |gmailService.transporters|) +
        SendGrid.EnviarEmail(SendGridTestMail(env), env, sendgridReply).trace
    {
      resultados := Report(TierReport(false, None), TierReport(false, None));

      var gmail, gmailTrace := gmailService.EnviarEmail(GmailTestMail(env), gmailProbe);
      if gmail.Threw? {
        resultados := resultados.(gmail := resultados.gmail.(error := Some(gmail.message)));
      } else {
        resultados := resultados.(gmail := resultados.gmail.(funciona := true));
      }

      var sendgrid := SendGrid.EnviarEmail(SendGridTestMail(env), env, sendgridReply);
      if sendgrid.outcome.Threw? {
        resultados := resultados.(sendgrid := resultados.sendgrid.(error := Some(sendgrid.outcome.message)));
      } else {
        resultados := resultados.(sendgrid := resultados.sendgrid.(funciona := true));
      }

      trace := gmailTrace + sendgrid.trace;
      OneSendGridCallAfterWaterfall(GmailTestMail(env), gmailProbe, |gmailService.transporters|, sendgrid.trace);
    }
  }
}

/**
 * The Gmail waterfall of email-service.js: an `EmailService` holds an
 * ordered list of SMTP transporters and `EnviarEmail` tries them in order,
 * `verify` before `sendMail` on each, stopping at the first success and
 * throwing when the last one fails.
 *
 * `WaterfallOutcome` and `WaterfallTrace` say declaratively what a call
 * returns and which provider calls it makes; the method's loop is proved
 * against them, and the lemmas below state what the waterfall promises.
 */
module Waterfall {
  import opened Common
  import opened Mail
  import opened Prizes
  import Notifications

  /** One entry of `this.transporters`: its diagnostic name (the transport options are not modelled). */
  datatype TransporterConfig = TransporterConfig(name: string)

  /** The list `initializeTransporters` builds, in priority order. */
  function DefaultTransporters(): (ts: seq<TransporterConfig>)
    ensures Names(ts) == ["Gmail Railway", "Gmail 587", "Gmail Service"]
  {
    [TransporterConfig("Gmail Railway"), TransporterConfig("Gmail 587"), TransporterConfig("Gmail Service")]
  }

  /** The names of a transporter list, in order. */
  function Names(ts: seq<TransporterConfig>): (ns: seq<string>)
    ensures |ns| == |ts| && forall i :: 0 <= i < |ts| ==> ns[i] == ts[i].name
  {
    if ts == [] then [] else [ts[0].name] + Names(ts[1..])
  }

  const AllFailedPrefix := "Todas las configuraciones fallaron. Último error: "

  /** A transporter succeeds when `verify` resolves and then `sendMail` resolves. */
  predicate Succeeds(a: Attempt) {
    a.verify.Up? && a.send.Delivered?
  }

  /** The message of the error caught for a failed attempt: `verify`'s if it rejected, else `sendMail`'s. */
  function FailureMessage(a: Attempt): string
    requires !Succeeds(a)
  {
    if a.verify.Down? then a.verify.msg else a.send.msg
  }

  /** The first position at or after `from` (and below `n`) whose transporter succeeds, or `n` if none does. */
  function FirstSuccess(probe: Probe, n: nat, from: nat): (k: nat)
    requires from <= n
    ensures from <= k <= n
    ensures forall j :: from <= j < k ==> !Succeeds(probe(j))
    ensures k < n ==> Succeeds(probe(k))
    decreases n - from
  {
    if from == n then n
    else if Succeeds(probe(from)) then from
    else FirstSuccess(probe, n, from + 1)
  }

  /** How many of `n` transporters a call contacts: up to the first success, or all of them. */
  function Contacted(probe: Probe, n: nat): (c: nat)
    ensures c <= n
    ensures c < n ==> 0 < c && Succeeds(probe(c - 1))
    ensures forall j :: 0 <= j < c - 1 ==> !Succeeds(probe(j))
  {
    var k := FirstSuccess(probe, n, 0);
    if k < n then k + 1 else n
  }

  /** What `enviarEmail` over `ts` returns or throws for `mail`. */
  function WaterfallOutcome(ts: seq<TransporterConfig>, probe: Probe): (o: SendOutcome)
    ensures o.NoResult? <==> ts == []
    ensures o.Sent? ==> o.transporter in Names(ts)
    ensures o.Threw? ==> |ts| > 0 && |o.message| >= |AllFailedPrefix| && o.message[..|AllFailedPrefix|] == AllFailedPrefix
  {
    var n := |ts|;
    var k := FirstSuccess(probe, n, 0);
    if k < n then
      assert Names(ts)[k] == ts[k].name;
      Sent(probe(k).send.messageId, ts[k].name)
    else if n == 0 then NoResult
    else Threw(AllFailedPrefix + FailureMessage(probe(n - 1)))
  }

  /** The provider calls made on transporter `slot`: `verify`, then `sendMail` only if `verify` resolved. */
  function AttemptEvents(slot: nat, mail: Mail, a: Attempt): seq<Event> {
    if a.verify.Up? then [Verify(slot, true), SendMail(slot, mail, a.send.Delivered?)]
    else [Verify(slot, false)]
  }

  /** The provider calls made on the first `c` transporters, in order. */
  function WaterfallTrace(mail: Mail, probe: Probe, c: nat): seq<Event> {
    if c == 0 then [] else WaterfallTrace(mail, probe, c - 1) + AttemptEvents(c - 1, mail, probe(c - 1))
  }

  /** The full trace of one `enviarEmail` call over `n` transporters. */
  function CallTrace(mail: Mail, probe: Probe, n: nat): (t: seq<Event>)
    ensures forall e :: e in t ==> (e.Verify? || e.SendMail?) && e.slot < n
    ensures forall e :: e in t && e.SendMail? ==> e.mail == mail
  {
    WaterfallEvents(mail, probe, Contacted(probe, n));
    WaterfallTrace(mail, probe, Contacted(probe, n))
  }

  /** The slot of a `verify` call, as a one-element sequence; nothing for any other call. */
  function VerifiedSlot(e: Event): seq<nat> {
    if e.Verify? then [e.slot] else []
  }

  /** The slot of a `sendMail` call, as a one-element sequence; nothing for any other call. */
  function SentSlot(e: Event): seq<nat> {
    if e.SendMail? then [e.slot] else []
  }

  /** The message of a `sendMail` call, as a one-element sequence; nothing for any other call. */
  function SentMail(e: Event): seq<Mail> {
    if e.SendMail? then [e.mail] else []
  }

  /** The transporters whose `verify` the trace calls, in call order. */
  function VerifiedSlots(t: seq<Event>): seq<nat> {
    FlatMap(t, VerifiedSlot)
  }

  /** The transporters whose `sendMail` the trace calls, in call order. */
  function SentSlots(t: seq<Event>): seq<nat> {
    FlatMap(t, SentSlot)
  }

  /** The messages the trace hands to `sendMail`, in call order. */
  function Mails(t: seq<Event>): seq<Mail> {
    FlatMap(t, SentMail)
  }

  /** One attempt verifies its own slot once. */
  lemma AttemptVerifies(slot: nat, mail: Mail, a: Attempt)
    ensures VerifiedSlots(AttemptEvents(slot, mail, a)) == [slot]
  {
    var t := AttemptEvents(slot, mail, a);
    if a.verify.Up? {
      var u := [SendMail(slot, mail, a.send.Delivered?)];
      assert t == [Verify(slot, true)] + u;
      FlatMapAppend([Verify(slot, true)], u, VerifiedSlot);
      FlatMapSingle(u[0], VerifiedSlot);
      FlatMapSingle(Verify(slot, true), VerifiedSlot);
    } else {
      FlatMapSingle(Verify(slot, false), VerifiedSlot);
    }
  }

  /** One attempt calls `sendMail` on its slot exactly when its `verify` resolved. */
  lemma AttemptSends(slot: nat, mail: Mail, a: Attempt)
    ensures SentSlots(AttemptEvents(slot, mail, a)) == if a.verify.Up? then [slot] else []
  {
    var t := AttemptEvents(slot, mail, a);
    if a.verify.Up? {
      var u := [SendMail(slot, mail, a.send.Delivered?)];
      assert t == [Verify(slot, true)] + u;
      FlatMapAppend([Verify(slot, true)], u, SentSlot);
      FlatMapSingle(u[0], SentSlot);
      FlatMapSingle(Verify(slot, true), SentSlot);
    } else {
      FlatMapSingle(Verify(slot, false), SentSlot);
    }
  }

  /** Transporters are contacted strictly in list order, starting at position 0, one `verify` each. */
  lemma {:induction false} VerifiesInOrder(mail: Mail, probe: Probe, c: nat)
    ensures |VerifiedSlots(WaterfallTrace(mail, probe, c))| == c
    ensures forall p :: 0 <= p < c ==> VerifiedSlots(WaterfallTrace(mail, probe, c))[p] == p
  {
    if c > 0 {
      VerifiesInOrder(mail, probe, c - 1);
      FlatMapAppend(WaterfallTrace(mail, probe, c - 1), AttemptEvents(c - 1, mail, probe(c - 1)), VerifiedSlot);
      AttemptVerifies(c - 1, mail, probe(c - 1));
    }
  }

  /** `sendMail` is called on exactly those contacted transporters whose `verify` resolved. */
  lemma {:induction false} SendsOnlyAfterVerify(mail: Mail, probe: Probe, c: nat)
    ensures forall j: nat :: j in SentSlots(WaterfallTrace(mail, probe, c)) <==> j < c && probe(j).verify.Up?
  {
    if c > 0 {
      SendsOnlyAfterVerify(mail, probe, c - 1);
      SentSlotsStep(mail, probe, c);
      var s0 := SentSlots(WaterfallTrace(mail, probe, c - 1));
      var piece := if probe(c - 1).verify.Up? then [c - 1] else [];
      forall j: nat ensures j in s0 + piece <==> j < c && probe(j).verify.Up? {
        assert j in s0 + piece <==> j in s0 || j in piece;
      }
    }
  }

  /** One more transporter adds its slot to the `sendMail` calls exactly when its `verify` resolved. */
  lemma SentSlotsStep(mail: Mail, probe: Probe, c: nat)
    requires c > 0
    ensures SentSlots(WaterfallTrace(mail, probe, c)) ==
      SentSlots(WaterfallTrace(mail, probe, c - 1)) + if probe(c - 1).verify.Up? then [c - 1] else []
  {
    var t0 := WaterfallTrace(mail, probe, c - 1);
    var ev := AttemptEvents(c - 1, mail, probe(c - 1));
    calc {
      SentSlots(WaterfallTrace(mail, probe, c));
      SentSlots(t0 + ev);
      { FlatMapAppend(t0, ev, SentSlot); }
      SentSlots(t0) + SentSlots(ev);
      { AttemptSends(c - 1, mail, probe(c - 1)); }
      SentSlots(t0) + if probe(c - 1).verify.Up? then [c - 1] else [];
    }
  }

  /** Each `sendMail` call comes right after a resolved `verify` of the same transporter. */
  ghost predicate SendsFollowVerifies(t: seq<Event>) {
    forall p :: 0 <= p < |t| && t[p].SendMail? ==> 0 < p && t[p - 1] == Verify(t[p].slot, true)
  }

  lemma {:induction false} SendFollowsVerify(mail: Mail, probe: Probe, c: nat)
    ensures SendsFollowVerifies(WaterfallTrace(mail, probe, c))
  {
    if c > 0 {
      SendFollowsVerify(mail, probe, c - 1);
      var t0 := WaterfallTrace(mail, probe, c - 1);
      var ev := AttemptEvents(c - 1, mail, probe(c - 1));
      var t := t0 + ev;
      forall p | 0 <= p < |t| && t[p].SendMail?
        ensures 0 < p && t[p - 1] == Verify(t[p].slot, true)
      {
        if p < |t0| {
          assert t[p] == t0[p];
          assert t0[p].SendMail?;
          assert t[p - 1] == t0[p - 1];
        } else {
          assert t[p] == ev[p - |t0|];
          assert p - |t0| == 1 && ev[0] == Verify(c - 1, true);
        }
      }
    }
  }

  /** A trace whose `sendMail` calls all carry `mail` hands `sendMail` no other message. */
  lemma {:induction false} MailsOnly(t: seq<Event>, mail: Mail)
    requires forall e :: e in t && e.SendMail? ==> e.mail == mail
    ensures forall m :: m in Mails(t) ==> m == mail
  {
    if t != [] {
      assert t[0] in t;
      assert forall e :: e in t[1..] ==> e in t;
      MailsOnly(t[1..], mail);
      assert Mails(t) == SentMail(t[0]) + Mails(t[1..]);
    }
  }

  /** The waterfall for `mail` hands `sendMail` no other message. */
  lemma SendsOnlyItsMail(mail: Mail, probe: Probe, c: nat)
    ensures forall m :: m in Mails(WaterfallTrace(mail, probe, c)) ==> m == mail
  {
    WaterfallEvents(mail, probe, c);
    MailsOnly(WaterfallTrace(mail, probe, c), mail);
  }

  /**
   * Every provider call of the waterfall for `mail` is an SMTP call on a
   * contacted transporter and records that transporter's own outcome.
   */
  lemma {:induction false} WaterfallEvents(mail: Mail, probe: Probe, c: nat)
    ensures forall e :: e in WaterfallTrace(mail, probe, c) ==>
      && !e.SendGridSend?
      && e.slot < c
      && (e.Verify? ==> e.ok == probe(e.slot).verify.Up?)
      && (e.SendMail? ==> e.mail == mail && e.delivered == probe(e.slot).send.Delivered?)
  {
    if c > 0 {
      WaterfallEvents(mail, probe, c - 1);
      var t0 := WaterfallTrace(mail, probe, c - 1);
      var ev := AttemptEvents(c - 1, mail, probe(c - 1));
      forall e: Event | e in t0 + ev
        ensures && !e.SendGridSend?
                && e.slot < c
                && (e.Verify? ==> e.ok == probe(e.slot).verify.Up?)
                && (e.SendMail? ==> e.mail == mail && e.delivered == probe(e.slot).send.Delivered?)
      {
        if e !in t0 {
          assert e in ev;
        }
      }
    }
  }

  /** A waterfall never calls SendGrid. */
  lemma NoSendGridInWaterfall(mail: Mail, probe: Probe, c: nat)
    ensures SendGridCalls(WaterfallTrace(mail, probe, c)) == 0
  {
    WaterfallEvents(mail, probe, c);
    FilterNone(WaterfallTrace(mail, probe, c), (e: Event) => e.SendGridSend?);
  }

  /**
   * The first success wins: it names its transporter and carries its
   * messageId, exactly `k + 1` transporters are contacted, and the call's
   * last provider call is that accepted send.
   */
  lemma FirstSuccessWins(ts: seq<TransporterConfig>, mail: Mail, probe: Probe, k: nat)
    requires k < |ts| && Succeeds(probe(k))
    requires forall j :: 0 <= j < k ==> !Succeeds(probe(j))
    ensures WaterfallOutcome(ts, probe) == Sent(probe(k).send.messageId, ts[k].name)
    ensures Contacted(probe, |ts|) == k + 1
    ensures CallTrace(mail, probe, |ts|) == WaterfallTrace(mail, probe, k + 1)
    ensures var t := CallTrace(mail, probe, |ts|); |t| > 0 && t[|t| - 1] == SendMail(k, mail, true)
  {
  }

  /** When every transporter fails, all are contacted and the error names only the last one's failure. */
  lemma AllFailThrowsLast(ts: seq<TransporterConfig>, mail: Mail, probe: Probe)
    requires |ts| > 0
    requires forall j :: 0 <= j < |ts| ==> !Succeeds(probe(j))
    ensures WaterfallOutcome(ts, probe) == Threw(AllFailedPrefix + FailureMessage(probe(|ts| - 1)))
    ensures Contacted(probe, |ts|) == |ts|
    ensures CallTrace(mail, probe, |ts|) == WaterfallTrace(mail, probe, |ts|)
  {
  }

  /** The call resolves to a result exactly when some transporter succeeds. */
  lemma SentIffSomeSucceeds(ts: seq<TransporterConfig>, probe: Probe)
    ensures WaterfallOutcome(ts, probe).Sent? <==> exists j :: 0 <= j < |ts| && Succeeds(probe(j))
  {
    var f := FirstSuccess(probe, |ts|, 0);
    if f == |ts| {
      forall j | 0 <= j < |ts| ensures !Succeeds(probe(j)) {
        assert 0 <= j < f;
      }
    }
  }

  /** With no transporters the loop ends without a result and without an error. */
  lemma EmptyListNoResult(mail: Mail, probe: Probe)
    ensures WaterfallOutcome([], probe) == NoResult
    ensures CallTrace(mail, probe, 0) == []
  {
  }

  /** The message of any `sendMail` call in a trace is among the trace's messages. */
  lemma {:induction false} MailOfSend(t: seq<Event>, p: nat)
    requires p < |t| && t[p].SendMail?
    ensures t[p].mail in Mails(t)
    decreases p
  {
    if p > 0 {
      MailOfSend(t[1..], p - 1);
      assert t[1..][p - 1] == t[p];
    }
  }

  /** A call whose first success is transporter `k` ends with `k`'s resolved `verify` and accepted send. */
  lemma CallTraceOnSuccess(mail: Mail, probe: Probe, n: nat)
    requires FirstSuccess(probe, n, 0) < n
    ensures var k := FirstSuccess(probe, n, 0);
      CallTrace(mail, probe, n) == WaterfallTrace(mail, probe, k) + [Verify(k, true), SendMail(k, mail, true)]
  {
  }

  /** A call that resolves with a result has handed its message to a transporter that accepted it. */
  lemma SentMeansDelivered(ts: seq<TransporterConfig>, mail: Mail, probe: Probe)
    requires WaterfallOutcome(ts, probe).Sent?
    ensures SendMail(FirstSuccess(probe, |ts|, 0), mail, true) in CallTrace(mail, probe, |ts|)
    ensures mail in Mails(CallTrace(mail, probe, |ts|))
  {
    var k := FirstSuccess(probe, |ts|, 0);
    assert k < |ts|;
    CallTraceOnSuccess(mail, probe, |ts|);
    var t := CallTrace(mail, probe, |ts|);
    var t0 := WaterfallTrace(mail, probe, k);
    assert t[|t0| + 1] == SendMail(k, mail, true);
    MailOfSend(t, |t0| + 1);
  }

  /** A call over a non-empty list either resolves with a result or throws. */
  lemma NonEmptyHasOutcome(ts: seq<TransporterConfig>, probe: Probe)
    requires |ts| > 0
    ensures !WaterfallOutcome(ts, probe).NoResult?
  {
  }

  /** The `from` that email-service.js puts on both notifications. */
  function SmtpFrom(env: Env): (f: string)
    ensures |f| == |env.emailUser| + 14
    ensures f[1..10] == "Glampling" && f[13..|f| - 1] == env.emailUser
  {
    "\"Glampling\" <" + env.emailUser + ">"
  }

  /** The winner's notification as this service sends it: from the Glampling header. */
  function WinnerMailOf(premio: Premio, env: Env): (m: Mail)
    ensures m.from == Some(SmtpFrom(env)) && m.to == premio.email && m.subject == Notifications.WinnerSubject
  {
    Notifications.WinnerMail(premio, Some(SmtpFrom(env)))
  }

  /** The administrator's notification as this service sends it: from the Glampling header, to `ADMIN_EMAIL`. */
  function AdminMailOf(premio: Premio, env: Env): (m: Mail)
    ensures m.from == Some(SmtpFrom(env)) && m.to == env.adminEmail && m.subject == Notifications.AdminSubject
  {
    Notifications.AdminMail(premio, Some(SmtpFrom(env)), env.adminEmail)
  }

  /**
   * What `enviarNotificaciones` returns, with its provider calls: the
   * winner's message goes through the waterfall first; the administrator's
   * only if that did not throw; `true` when neither threw.
   */
  function SmtpPair(ts: seq<TransporterConfig>, premio: Premio, env: Env, winnerProbe: Probe, adminProbe: Probe): (r: PairResult)
    ensures r.ok <==> !WaterfallOutcome(ts, winnerProbe).Threw? && !WaterfallOutcome(ts, adminProbe).Threw?
    ensures var wt := CallTrace(WinnerMailOf(premio, env), winnerProbe, |ts|);
      |r.trace| >= |wt| && r.trace[..|wt|] == wt
    ensures forall e :: e in r.trace ==> !e.SendGridSend?
  {
    var winner := WaterfallOutcome(ts, winnerProbe);
    var winnerTrace := CallTrace(WinnerMailOf(premio, env), winnerProbe, |ts|);
    if winner.Threw? then PairResult(false, winnerTrace)
    else
      var admin := WaterfallOutcome(ts, adminProbe);
      PairResult(!admin.Threw?, winnerTrace + CallTrace(AdminMailOf(premio, env), adminProbe, |ts|))
  }

  /** The pair send over a non-empty list succeeds exactly when both messages were accepted by some transporter. */
  lemma SmtpPairResult(ts: seq<TransporterConfig>, premio: Premio, env: Env, winnerProbe: Probe, adminProbe: Probe)
    requires |ts| > 0
    ensures SmtpPair(ts, premio, env, winnerProbe, adminProbe).ok <==>
      WaterfallOutcome(ts, winnerProbe).Sent? && WaterfallOutcome(ts, adminProbe).Sent?
  {
    NonEmptyHasOutcome(ts, winnerProbe);
    NonEmptyHasOutcome(ts, adminProbe);
  }

  /** Every message a waterfall call hands to `sendMail` is the call's own message, position by position. */
  lemma CallMails(mail: Mail, probe: Probe, n: nat)
    ensures var ms := Mails(CallTrace(mail, probe, n));
      forall p :: 0 <= p < |ms| ==> ms[p] == mail
  {
    var ms := Mails(CallTrace(mail, probe, n));
    SendsOnlyItsMail(mail, probe, Contacted(probe, n));
    forall p | 0 <= p < |ms| ensures ms[p] == mail {
      assert ms[p] in ms;
    }
  }

  /**
   * In the pair send the messages handed to `sendMail` are only the two
   * notifications, the winner's comes first, every winner send precedes
   * every administrator send, and a failed winner send means the
   * administrator's message is never handed over.
   */
  lemma SmtpPairWinnerFirst(ts: seq<TransporterConfig>, premio: Premio, env: Env, winnerProbe: Probe, adminProbe: Probe)
    ensures var ms := Mails(SmtpPair(ts, premio, env, winnerProbe, adminProbe).trace);
      && (forall p :: 0 <= p < |ms| ==> ms[p] == WinnerMailOf(premio, env) || ms[p] == AdminMailOf(premio, env))
      && (|ms| > 0 ==> ms[0] == WinnerMailOf(premio, env))
      && (forall p, q :: 0 <= p <= q < |ms| && ms[p] == AdminMailOf(premio, env) ==> ms[q] == AdminMailOf(premio, env))
      && (WaterfallOutcome(ts, winnerProbe).Threw? ==> AdminMailOf(premio, env) !in ms)
  {
    var w, a := WinnerMailOf(premio, env), AdminMailOf(premio, env);
    Notifications.WinnerIsNotAdmin(premio, Some(SmtpFrom(env)), Some(SmtpFrom(env)), env.adminEmail);
    var wt := CallTrace(w, winnerProbe, |ts|);
    var at := CallTrace(a, adminProbe, |ts|);
    CallMails(w, winnerProbe, |ts|);
    CallMails(a, adminProbe, |ts|);
    var wm, am := Mails(wt), Mails(at);
    var ms := Mails(SmtpPair(ts, premio, env, winnerProbe, adminProbe).trace);
    if WaterfallOutcome(ts, winnerProbe).Threw? {
      assert ms == wm;
    } else {
      FlatMapAppend(wt, at, SentMail);
      assert ms == wm + am;
      if |ts| == 0 {
        assert at == [];
      } else {
        SentMeansDelivered(ts, w, winnerProbe);
        assert |wm| > 0;
      }
    }
  }

  /**
   * Over an empty list neither message is handed to any transporter, yet
   * neither waterfall throws, so the pair reports success.
   */
  lemma EmptyListPairReportsSuccess(premio: Premio, env: Env, winnerProbe: Probe, adminProbe: Probe)
    ensures SmtpPair([], premio, env, winnerProbe, adminProbe) == PairResult(true, [])
  {
    EmptyListNoResult(WinnerMailOf(premio, env), winnerProbe);
    EmptyListNoResult(AdminMailOf(premio, env), adminProbe);
  }

  /** The concrete case: the first two transporters time out, the third accepts with id "abc". */
  lemma ThirdTransporterScenario(mail: Mail, probe: Probe)
    requires probe(0) == Attempt(Down("Timeout"), Failed("Timeout"))
    requires probe(1) == Attempt(Up, Failed("Timeout"))
    requires probe(2) == Attempt(Up, Delivered("abc"))
    ensures WaterfallOutcome(DefaultTransporters(), probe) == Sent("abc", "Gmail Service")
    ensures Contacted(probe, 3) == 3
  {
    FirstSuccessWins(DefaultTransporters(), mail, probe, 2);
  }

  /** The email service of email-service.js. */
  class EmailService {
    var transporters: seq<TransporterConfig>

    /** The constructor builds the three Gmail configurations, in priority order. */
    constructor ()
      ensures transporters == DefaultTransporters()
      ensures Names(transporters) == ["Gmail Railway", "Gmail 587", "Gmail Service"]
    {
      transporters := [];
      new;
      InitializeTransporters();
    }

    /** Appends the three configurations to the list, one `push` each. */
    method InitializeTransporters()
      modifies this
      ensures transporters == old(transporters) + DefaultTransporters()
    {
      transporters := transporters + [TransporterConfig("Gmail Railway")];
      transporters := transporters + [TransporterConfig("Gmail 587")];
      transporters := transporters + [TransporterConfig("Gmail Service")];
    }

    /**
     * Tries the transporters in order: `verify`, then `sendMail`; returns
     * on the first accepted send, throws after the last one fails.
     */
    method EnviarEmail(emailData: Mail, probe: Probe) returns (r: SendOutcome, trace: seq<Event>)
      ensures r == WaterfallOutcome(transporters, probe)
      ensures trace == CallTrace(emailData, probe, |transporters|)
    {
      r, trace := NoResult, [];
      var i := 0;
      while i < |transporters|
        invariant i <= |transporters|
        invariant i == |transporters| ==> |transporters| == 0
        invariant forall j :: 0 <= j < i ==> !Succeeds(probe(j))
        invariant trace == WaterfallTrace(emailData, probe, i)
      {
        var config := transporters[i];
        var attempt := probe(i);
        var error: string;
        if attempt.verify.Up? {
          trace := trace + [Verify(i, true)];
          trace := trace + [SendMail(i, emailData, attempt.send.Delivered?)];
          assert trace == WaterfallTrace(emailData, probe, i + 1);
          if attempt.send.Delivered? {
            r := Sent(attempt.send.messageId, config.name);
            FirstSuccessWins(transporters, emailData, probe, i);
            return;
          }
          error := attempt.send.msg;
        } else {
          trace := trace + [Verify(i, false)];
          assert trace == WaterfallTrace(emailData, probe, i + 1);
          error := attempt.verify.msg;
        }
        if i == |transporters| - 1 {
          r := Threw(AllFailedPrefix + error);
          AllFailThrowsLast(transporters, emailData, probe);
          return;
        }
        i := i + 1;
      }
    }

    /**
     * Sends the winner's message, then the administrator's; returns
     * whether neither send threw, and never throws itself.
     */
    method EnviarNotificaciones(premio: Premio, env: Env, winnerProbe: Probe, adminProbe: Probe)
      returns (ok: bool, trace: seq<Event>)
      ensures PairResult(ok, trace) == SmtpPair(transporters, premio, env, winnerProbe, adminProbe)
    {
      var emailUsuario := WinnerMailOf(premio, env);
      var emailAdmin := AdminMailOf(premio, env);
      var resultadoUsuario, userTrace := EnviarEmail(emailUsuario, winnerProbe);
      if resultadoUsuario.Threw? {
        return false, userTrace;
      }
      var resultadoAdmin, adminTrace := EnviarEmail(emailAdmin, adminProbe);
      ok := !resultadoAdmin.Threw?;
      trace := userTrace + adminTrace;
    }
  }
}

/**
 * The two notification messages built from a prize record: one to the
 * winner, one to the administrator. Every sender builds the same
 * subjects and interpolates the same fields into the bodies; they differ
 * in the sender they put in `from`.
 *
 * The HTML templates are opaque text around the interpolated fields: only
 * the markup immediately around each field is kept (the styling and the
 * surrounding wording are not), since only where the fields sit matters
 * here.
 */
module Notifications {
  import opened Common
  import opened Mail
  import opened Prizes

  const WinnerSubject := "🎉 ¡Felicidades! Has ganado un premio en Glampling"
  const AdminSubject := "📊 Nuevo premio otorgado - Glampling"

  const WinnerLead := "<h3>"
  const WinnerMiddle := "</h3><p>Fecha: "
  const WinnerTail := "</p>"

  const AdminLead := "<p><strong>Usuario:</strong> "
  const AdminAfterEmail := "</p><p><strong>Premio:</strong> "
  const AdminAfterPrize := "</p><p><strong>Fecha:</strong> "
  const AdminTail := "</p>"

  /** The winner's HTML body: it shows the prize label and the registration date. */
  function WinnerHtml(premio: string, fecha: string): (h: string)
    ensures Contains(h, premio) && Contains(h, fecha)
  {
    var h := WinnerLead + premio + WinnerMiddle + fecha + WinnerTail;
    ContainsAt(h, |WinnerLead|, premio);
    ContainsAt(h, |WinnerLead + premio + WinnerMiddle|, fecha);
    h
  }

  /** The administrator's HTML body: it shows the winner's email, the prize label and the date. */
  function AdminHtml(email: string, premio: string, fecha: string): (h: string)
    ensures Contains(h, email) && Contains(h, premio) && Contains(h, fecha)
  {
    var h := AdminLead + email + AdminAfterEmail + premio + AdminAfterPrize + fecha + AdminTail;
    ContainsAt(h, |AdminLead|, email);
    ContainsAt(h, |AdminLead + email + AdminAfterEmail|, premio);
    ContainsAt(h, |AdminLead + email + AdminAfterEmail + premio + AdminAfterPrize|, fecha);
    h
  }

  /** `emailUsuario`: addressed to the winner, showing the prize and its date, with no plain-text body. */
  function WinnerMail(premio: Premio, from: Option<string>): (m: Mail)
    ensures m.from == from && m.to == premio.email && m.subject == WinnerSubject && m.text == None
    ensures m.html.Some? && Contains(m.html.value, premio.premio) && Contains(m.html.value, premio.fechaRegistro)
  {
    Mail(from, premio.email, WinnerSubject, Some(WinnerHtml(premio.premio, premio.fechaRegistro)), None)
  }

  /** `emailAdmin`: addressed to `admin`, showing the winner's email, the prize and its date. */
  function AdminMail(premio: Premio, from: Option<string>, admin: string): (m: Mail)
    ensures m.from == from && m.to == admin && m.subject == AdminSubject && m.text == None
    ensures m.html.Some? && Contains(m.html.value, premio.email)
    ensures Contains(m.html.value, premio.premio) && Contains(m.html.value, premio.fechaRegistro)
  {
    Mail(from, admin, AdminSubject, Some(AdminHtml(premio.email, premio.premio, premio.fechaRegistro)), None)
  }

  /** The two messages can never be mistaken for one another: their subjects differ. */
  lemma WinnerIsNotAdmin(premio: Premio, from: Option<string>, from': Option<string>, admin: string)
    ensures WinnerMail(premio, from) != AdminMail(premio, from', admin)
  {
    assert |WinnerSubject| != |AdminSubject|;
  }
}

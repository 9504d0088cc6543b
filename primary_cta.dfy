/** features/marketing/utils/get-primary-cta.ts: the landing page's main
    call-to-action link, chosen by whether the visitor is signed in. */
module PrimaryCta {

  // `text` is the source's `label` field (`label` is a Dafny keyword).
  datatype Cta = Cta(href: string, text: string)

  const DashboardCta := Cta("/dashboard", "Go to dashboard")
  const SignUpCta := Cta("/sign-up", "Start tracking")

  /** Signed-in visitors are sent to their dashboard, everyone else to sign-up. */
  function GetPrimaryCta(isAuthenticated: bool): (r: Cta)
    ensures isAuthenticated <==> r == DashboardCta
    ensures !isAuthenticated <==> r == SignUpCta
  {
    if isAuthenticated then DashboardCta else SignUpCta
  }

  /** The two outcomes differ in both the link and its label, so each field
      alone tells which case applied. */
  lemma CtaOutcomesDistinct(a: bool, b: bool)
    ensures GetPrimaryCta(a).href == GetPrimaryCta(b).href <==> a == b
    ensures GetPrimaryCta(a).text == GetPrimaryCta(b).text <==> a == b
  {
    assert DashboardCta.href[1] != SignUpCta.href[1];
    assert DashboardCta.text[0] != SignUpCta.text[0];
  }
}

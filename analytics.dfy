/**
 * Analytics configuration and script selection
 * (plugins/analytics_monitoring/analytics_plugin.py). Script bodies are abstract
 * renderings that carry the measurement id and the privacy flags.
 */
module Analytics {
  import opened Wrappers
  import opened Text
  import opened Config

  /** The `analytics` context entry. */
  datatype AnalyticsConfig = AnalyticsConfig(
    googleAnalyticsId: string, gtagId: string, privacyMode: bool,
    cookieConsent: bool, performanceMonitoring: bool, errorTracking: bool)

  /** The configuration `add_analytics_context` stores: empty ids and true flags by default. */
  function ConfigFor(s: Settings): (c: AnalyticsConfig)
    ensures s.googleAnalytics.None? ==> c.googleAnalyticsId == ""
    ensures s.gtagId.None? ==> c.gtagId == ""
    ensures s.privacyMode.None? && s.cookieConsent.None? && s.performanceMonitoring.None? && s.errorTracking.None?
            ==> c.privacyMode && c.cookieConsent && c.performanceMonitoring && c.errorTracking
    ensures s.googleAnalytics.Some? ==> c.googleAnalyticsId == s.googleAnalytics.value
    ensures s.gtagId.Some? ==> c.gtagId == s.gtagId.value
    ensures s.privacyMode.Some? ==> c.privacyMode == s.privacyMode.value
    ensures s.cookieConsent.Some? ==> c.cookieConsent == s.cookieConsent.value
    ensures s.performanceMonitoring.Some? ==> c.performanceMonitoring == s.performanceMonitoring.value
    ensures s.errorTracking.Some? ==> c.errorTracking == s.errorTracking.value
  {
    AnalyticsConfig(s.googleAnalytics.GetOr(""), s.gtagId.GetOr(""), Flag(s.privacyMode),
                    Flag(s.cookieConsent), Flag(s.performanceMonitoring), Flag(s.errorTracking))
  }

  /** The four booleans of the gtag `config` call. */
  datatype GtagFlags = GtagFlags(
    anonymizeIp: bool, respectDnt: bool, allowGoogleSignals: bool, allowAdPersonalizationSignals: bool)

  /** Privacy mode turns anonymisation and Do-Not-Track on, and both "allow" signals off. */
  function FlagsFor(privacy: bool): (g: GtagFlags)
    ensures g.anonymizeIp == privacy && g.respectDnt == privacy
    ensures g.allowGoogleSignals == !privacy && g.allowAdPersonalizationSignals == !privacy
  {
    GtagFlags(privacy, privacy, !privacy, !privacy)
  }

  /** Turning privacy mode off gives the exact inverse of every flag. */
  lemma PrivacyInvertsFlags(privacy: bool)
    ensures FlagsFor(!privacy).anonymizeIp == !FlagsFor(privacy).anonymizeIp
    ensures FlagsFor(!privacy).respectDnt == !FlagsFor(privacy).respectDnt
    ensures FlagsFor(!privacy).allowGoogleSignals == !FlagsFor(privacy).allowGoogleSignals
    ensures FlagsFor(!privacy).allowAdPersonalizationSignals == !FlagsFor(privacy).allowAdPersonalizationSignals
  {
  }

  /** A JavaScript boolean literal. */
  function JsBool(b: bool): string {
    if b then "true" else "false"
  }

  /** The option object of the gtag `config` call. */
  function RenderFlags(g: GtagFlags): string {
    "{'anonymize_ip': " + JsBool(g.anonymizeIp)
    + ", 'respect_dnt': " + JsBool(g.respectDnt)
    + ", 'allow_google_signals': " + JsBool(g.allowGoogleSignals)
    + ", 'allow_ad_personalization_signals': " + JsBool(g.allowAdPersonalizationSignals) + "}"
  }

  const GtagLoader := "<script async src=\"https://www.googletagmanager.com/gtag/js?id="
  const GtagConfigOpen := "\"></script><script>gtag('js', new Date()); gtag('config', '"
  const GtagConfigArgs := "', "
  const GtagClose := ");</script>"

  /** The Google Analytics 4 snippet for a measurement id: loader, then `config` call. */
  function GtagScript(id: string, privacy: bool): (r: string)
    ensures Contains(r, id)
    ensures Contains(r, RenderFlags(FlagsFor(privacy)))
  {
    var flags := RenderFlags(FlagsFor(privacy));
    var head := GtagLoader + id;
    ContainsEnd(GtagLoader, id);
    ContainsExtend(head, GtagConfigOpen, id);
    ContainsExtend(head + GtagConfigOpen, id, id);
    ContainsExtend(head + GtagConfigOpen + id, GtagConfigArgs, id);
    ContainsExtend(head + GtagConfigOpen + id + GtagConfigArgs, flags, id);
    ContainsExtend(head + GtagConfigOpen + id + GtagConfigArgs + flags, GtagClose, id);
    ContainsMiddle(head + GtagConfigOpen + id + GtagConfigArgs, flags, GtagClose);
    head + GtagConfigOpen + id + GtagConfigArgs + flags + GtagClose
  }

  /** The performance-monitoring snippet (Web Vitals, page load and error events). */
  const PerformanceScript := "<script>/* web vitals, page performance, error tracking */</script>"

  /** The cookie-consent banner snippet. */
  const CookieConsentScript := "<script>/* cookie consent banner */</script>"

  const GtagKey := "gtag_script"
  const PerformanceKey := "performance_script"
  const CookieConsentKey := "cookie_consent_script"

  /** The scripts `generate_analytics_scripts` writes, by context key. */
  function ScriptsFor(s: Settings): (m: map<string, string>)
    ensures GtagKey in m <==> Truthy(s.gtagId)
    ensures GtagKey in m ==> m[GtagKey] == GtagScript(s.gtagId.value, Flag(s.privacyMode))
    ensures GtagKey in m ==> Contains(m[GtagKey], s.gtagId.value)
    ensures PerformanceKey in m <==> Flag(s.performanceMonitoring)
    ensures CookieConsentKey in m <==> Flag(s.cookieConsent)
    ensures m.Keys <= {GtagKey, PerformanceKey, CookieConsentKey}
  {
    var gtag: map<string, string> :=
      if Truthy(s.gtagId) then map[GtagKey := GtagScript(s.gtagId.value, Flag(s.privacyMode))] else map[];
    var performance: map<string, string> :=
      if Flag(s.performanceMonitoring) then map[PerformanceKey := PerformanceScript] else map[];
    var consent: map<string, string> :=
      if Flag(s.cookieConsent) then map[CookieConsentKey := CookieConsentScript] else map[];
    gtag + performance + consent
  }

  /** With default settings the performance and consent scripts are both written. */
  lemma DefaultsWriteBothScripts(s: Settings)
    requires s.performanceMonitoring.None? && s.cookieConsent.None?
    ensures PerformanceKey in ScriptsFor(s) && CookieConsentKey in ScriptsFor(s)
  {
  }
}

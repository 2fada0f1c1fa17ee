/**
 * The hooks that write into a generator's template context: structured data and the
 * breadcrumb template (seo_plugin.py), the GitHub and YouTube data, and the analytics
 * configuration and scripts. A generator without a context is left alone by each of them.
 */
module Pipeline {
  import opened Wrappers
  import opened Config
  import Seo
  import GitHub
  import YouTube
  import Analytics

  /** The values the hooks store in a template context. */
  datatype Payload =
    | StructuredData(website: Seo.Website)
    | BreadcrumbList(itemListElement: seq<string>)
    | AnalyticsSettings(config: Analytics.AnalyticsConfig)
    | Script(text: string)
    | GitHubPayload(github: GitHub.GitHubData)
    | YouTubePayload(youtube: YouTube.YouTubeData)

  /** `context[key] = value` when `cond` holds. */
  function PutIf(context: map<string, Payload>, cond: bool, key: string, value: Payload): map<string, Payload> {
    if cond then context[key := value] else context
  }

  /** The context with every analytics script of the settings written over it. */
  function WithScripts(context: map<string, Payload>, s: Settings): (c: map<string, Payload>)
    ensures c.Keys == context.Keys + Analytics.ScriptsFor(s).Keys
    ensures forall k :: k in Analytics.ScriptsFor(s) ==> c[k] == Script(Analytics.ScriptsFor(s)[k])
    ensures forall k :: k in context && k !in Analytics.ScriptsFor(s) ==> c[k] == context[k]
  {
    var scripts := Analytics.ScriptsFor(s);
    var c1 := PutIf(context, Analytics.GtagKey in scripts, Analytics.GtagKey,
                    Script(if Analytics.GtagKey in scripts then scripts[Analytics.GtagKey] else ""));
    var c2 := PutIf(c1, Analytics.PerformanceKey in scripts, Analytics.PerformanceKey, Script(Analytics.PerformanceScript));
    PutIf(c2, Analytics.CookieConsentKey in scripts, Analytics.CookieConsentKey, Script(Analytics.CookieConsentScript))
  }

  /** Only the three script keys are ever written, and nothing is removed. */
  lemma WithScriptsOnlyWritesScriptKeys(context: map<string, Payload>, s: Settings)
    ensures context.Keys <= WithScripts(context, s).Keys
    ensures WithScripts(context, s).Keys - context.Keys
            <= {Analytics.GtagKey, Analytics.PerformanceKey, Analytics.CookieConsentKey}
    ensures forall k :: k in context && k !in {Analytics.GtagKey, Analytics.PerformanceKey, Analytics.CookieConsentKey}
              ==> WithScripts(context, s)[k] == context[k]
  {
  }

  /**
   * A Pelican generator as the hooks see it: its settings, whether it has a context at
   * all (`hasattr(generator, 'context')`), and the context dictionary.
   */
  class Generator {
    const settings: Settings
    const hasContext: bool
    var context: map<string, Payload>

    constructor (settings: Settings, hasContext: bool, context: map<string, Payload>)
      ensures this.settings == settings && this.hasContext == hasContext && this.context == context
    {
      this.settings := settings;
      this.hasContext := hasContext;
      this.context := context;
    }

    /** `add_structured_data`: the website record under `structured_data`. */
    method AddStructuredData()
      modifies this
      ensures !hasContext ==> context == old(context)
      ensures hasContext ==> context == old(context)["structured_data" := StructuredData(Seo.WebsiteData(settings))]
    {
      var website := Seo.WebsiteData(settings);
      if !hasContext {
        return;
      }
      context := context["structured_data" := StructuredData(website)];
    }

    /** `add_breadcrumb_data`: an empty BreadcrumbList under `breadcrumb_template`. */
    method AddBreadcrumbData()
      modifies this
      ensures !hasContext ==> context == old(context)
      ensures hasContext ==> context == old(context)["breadcrumb_template" := BreadcrumbList([])]
    {
      if !hasContext {
        return;
      }
      context := context["breadcrumb_template" := BreadcrumbList([])];
    }

    /** `add_analytics_context`: the analytics configuration under `analytics`. */
    method AddAnalyticsContext()
      modifies this
      ensures !hasContext ==> context == old(context)
      ensures hasContext ==> context == old(context)["analytics" := AnalyticsSettings(Analytics.ConfigFor(settings))]
    {
      if !hasContext {
        return;
      }
      context := context["analytics" := AnalyticsSettings(Analytics.ConfigFor(settings))];
    }

    /** `generate_analytics_scripts`: each script written iff its setting asks for it. */
    method GenerateAnalyticsScripts()
      modifies this
      ensures !hasContext ==> context == old(context)
      ensures hasContext ==> context == WithScripts(old(context), settings)
    {
      if !hasContext {
        return;
      }
      if Truthy(settings.gtagId) {
        context := context[Analytics.GtagKey := Script(Analytics.GtagScript(settings.gtagId.value, Flag(settings.privacyMode)))];
      }
      if Flag(settings.performanceMonitoring) {
        context := context[Analytics.PerformanceKey := Script(Analytics.PerformanceScript)];
      }
      if Flag(settings.cookieConsent) {
        context := context[Analytics.CookieConsentKey := Script(Analytics.CookieConsentScript)];
      }
    }

    /**
     * `add_github_data`: a GitHub data generator run over this generator's settings, its
     * result stored under `github`. No request is made without a context.
     */
    method AddGitHubData(token: Option<string>, server: (string, GitHub.Headers) -> GitHub.Api, now: string)
      modifies this
      ensures !hasContext ==> context == old(context)
      ensures hasContext ==>
                var username := settings.githubUsername.GetOr(GitHub.DefaultUsername);
                context == old(context)["github" := GitHubPayload(
                  GitHub.ContextData(username, server(username, GitHub.RequestHeaders(username, token)), now))]
    {
      if !hasContext {
        return;
      }
      var gen := new GitHub.DataGenerator(settings);
      gen.GenerateContext(token, server, now);
      context := context["github" := GitHubPayload(gen.githubData.value)];
    }

    /** `add_youtube_data`: the YouTube data stored under `youtube`. */
    method AddYouTubeData(apiKey: Option<string>, server: string -> YouTube.Api, now: string)
      modifies this
      ensures !hasContext ==> context == old(context)
      ensures hasContext ==>
                context == old(context)["youtube" := YouTubePayload(YouTube.ContextData(apiKey, server, settings, now))]
    {
      if !hasContext {
        return;
      }
      var gen := new YouTube.DataGenerator(settings);
      gen.GenerateContext(apiKey, server, now);
      context := context["youtube" := YouTubePayload(gen.youtubeData.value)];
    }
  }
}

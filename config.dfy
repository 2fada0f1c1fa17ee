/** The site settings the plugins read (pelicanconf.py values, typed). */
module Config {
  import opened Wrappers

  /**
   * One field per settings key the core reads; None means the key is not configured.
   * String keys are strings and flag keys are booleans.
   */
  datatype Settings = Settings(
    siteName: Option<string>,              // SITENAME
    siteDescription: Option<string>,       // SITEDESCRIPTION
    siteUrl: Option<string>,               // SITEURL
    author: Option<string>,                // AUTHOR
    googleAnalytics: Option<string>,       // GOOGLE_ANALYTICS
    gtagId: Option<string>,                // GTAG_ID
    privacyMode: Option<bool>,             // PRIVACY_MODE
    cookieConsent: Option<bool>,           // COOKIE_CONSENT
    performanceMonitoring: Option<bool>,   // PERFORMANCE_MONITORING
    errorTracking: Option<bool>,           // ERROR_TRACKING
    githubUsername: Option<string>,        // GITHUB_USERNAME
    youtubeChannelUsername: Option<string>, // YOUTUBE_CHANNEL_USERNAME
    youtubeChannelId: Option<string>)      // YOUTUBE_CHANNEL_ID

  /** `settings.get(key, True)` for a flag. */
  function Flag(o: Option<bool>): bool {
    o.GetOr(true)
  }

  /** Python truthiness of `settings.get(key)` for a string key (or of an optional string). */
  predicate Truthy(o: Option<string>) {
    o.Some? && o.value != ""
  }
}

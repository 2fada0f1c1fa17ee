# Bryan Howard website: a verified model of its build plugins, scripts and page script

This project models the parts of the bhowiebkr/bryan-howard-website static site that carry logic:

- the four Pelican plugins that enrich the build:
  - SEO structured data and meta tags;
  - GitHub profile and repository data;
  - YouTube channel data;
  - analytics configuration and scripts;
- the context hooks through which those plugins write into the shared template context;
- the `new-post` script, which builds a slug and a post skeleton;
- the `validate-site` script, which collects errors and warnings about a generated site;
- the behaviour of the site's page script `main.js`:
  - theme toggle;
  - mobile navigation;
  - header and scroll-to-top thresholds;
  - scroll-depth milestones;
  - form validation, including its email pattern.

Modules:

- `Wrappers` has `Option`.
- `Text` holds the string helpers:
  - Python `strip` and JavaScript `trim`;
  - substring containment;
  - truncation with an ellipsis;
  - ASCII lower-casing.
- `Config` holds the typed site settings. A setting that is absent is `None`.
- `Seo`, `GitHub`, `YouTube` and `Analytics` follow the four plugins.
- `Pipeline` holds the `Generator` with its shared context map and the hooks that write it.
- `NewPost` follows `scripts/new-post.py`.
- `Validate` follows `scripts/validate-site.py`.
- `Client` follows `theme/static/js/main.js`.

How each part is modelled:

- Pure derivations are functions with lemmas about them. Examples are the slug, the meta description, the structured-data record, the window of pages checked and the email test.
- State that the source updates in place is a class whose methods state the whole new state. Examples are the generator's context, an article list, the validator's two lists, the content tree, and the theme toggle, menu, scroll tracker and form fields of the page.
- Network answers are parameters of the model:
  - GitHub and YouTube answers are functions from request to response, described under "## Left out";
  - the validator's home page answer is a parameter.
- Environment variables (`GITHUB_TOKEN`, `YOUTUBE_API_KEY`), the clock and the file system are also parameters.

Behaviour worth noting:

- Without a GitHub token the GitHub plugin still calls the API anonymously. Only the YouTube plugin falls back to default data when its credential is missing.
- A failing YouTube uploads-playlist fetch is not a per-item failure. It raises inside `generate_context`, so the whole YouTube result becomes the fallback (`YouTube.LatestVideos`, `YouTube.ChannelData`).
- A failed YouTube video-details fetch keeps the video, with empty duration and zero counts. A failed GitHub details fetch keeps only the repository's base fields.
- `add_structured_data` takes two parameters (`plugins/seo_enhancement/seo_plugin.py:14`), but it is connected to `generator_init` (`plugins/seo_enhancement/seo_plugin.py:149`), which passes only the generator, so as written that hook would raise a TypeError. `Pipeline.Generator.AddStructuredData` models the body as if the hook were called.
- The focus trap's Escape handler sets the navigation's inline `display` to `none` (`theme/static/js/main.js:79-82`). `openMenu` never clears it (`theme/static/js/main.js:138-152`), so a menu reopened after that may stay hidden. `openMenu` also adds another focus-trap listener each time it runs. `Client.MobileNavigation` does not model the inline display style.

## Model

| member | source | states |
|---|---|---|
| Seo.WebsiteData | plugins/seo_enhancement/seo_plugin.py:18-33 | The website record takes name, description, url and author from the settings. Any missing key gives "". The author url equals the site url, and the publisher is the author. |
| Seo.ArticleImage | plugins/seo_enhancement/seo_plugin.py:85-98 | The article's own image when it has one, else the fixed site default. |
| Seo.ArticleImageIgnoresContent | plugins/seo_enhancement/seo_plugin.py:91-95 | Changing the article's content never changes the chosen image: content is never scanned. |
| Seo.Keywords | plugins/seo_enhancement/seo_plugin.py:72-81 | There is no keywords entry exactly when there is no category and no tags. Otherwise the list is the category, if any, followed by the tags in order. |
| Seo.PostingFor | plugins/seo_enhancement/seo_plugin.py:49-70 | The BlogPosting record. The headline is the title. The description is the summary, or the title when the summary is empty. The url and main-entity id are both `SITEURL/url`. The image is `ArticleImage`. The modified date defaults to the publish date. The author is the article's author name, and the publisher is the configured author. The keywords are `Keywords` of the category and tags. |
| Seo.WithStructuredData | plugins/seo_enhancement/seo_plugin.py:44-83 | An article that already has structured data is returned unchanged. Any other article gains exactly `PostingFor`, and no other attribute changes. |
| Seo.StructuredDataIdempotent | plugins/seo_enhancement/seo_plugin.py:44-46 | A second structured-data pass changes nothing. |
| Seo.CleanSummary | plugins/seo_enhancement/seo_plugin.py:122 | The cleaned summary is no longer than the input, contains no newline, and neither starts nor ends with Python whitespace. |
| Seo.MetaDescriptionFor | plugins/seo_enhancement/seo_plugin.py:119-125 | The result is at most 155 characters. A cleaned summary longer than 155 becomes its first 152 characters plus "...", exactly 155 in all. Anything shorter is kept as it is. |
| Seo.EnhancedMetaNeverOverwrites | plugins/seo_enhancement/seo_plugin.py:114-145 | No attribute that is already present is overwritten. Apart from the seven meta, Open Graph and Twitter attributes, the article is unchanged. |
| Seo.EnhancedMetaFills | plugins/seo_enhancement/seo_plugin.py:117-145 | A meta description is derived only from a non-empty summary, through `MetaDescriptionFor`. Titles come from the title. Descriptions come from the meta description, else the title. Images come from `ArticleImage`. Every Open Graph and Twitter attribute is present afterwards. |
| Seo.EnhancedMetaIdempotent | plugins/seo_enhancement/seo_plugin.py:114-145 | Running the meta-tag pass twice gives the same article as running it once. |
| Seo.EnhanceArticle | plugins/seo_enhancement/seo_plugin.py:117-145 | Applying the attribute tests one at a time, in source order, produces `EnhancedMeta` of the article. |
| Seo.ArticleGenerator.AddArticleStructuredData | plugins/seo_enhancement/seo_plugin.py:42-83 | Every article in the list is replaced by its `WithStructuredData`. The list keeps its length and order. |
| Seo.ArticleGenerator.EnhanceMetaTags | plugins/seo_enhancement/seo_plugin.py:114-145 | Every article in the list is replaced by its `EnhancedMeta`. The list keeps its length and order. |
| Pipeline.Generator.AddStructuredData | plugins/seo_enhancement/seo_plugin.py:14-40 | With a context, `structured_data` holds the website record and no other key changes. Without one, nothing changes. |
| Pipeline.Generator.AddBreadcrumbData | plugins/seo_enhancement/seo_plugin.py:100-112 | With a context, `breadcrumb_template` holds an empty BreadcrumbList and no other key changes. Without one, nothing changes. |
| GitHub.RequestHeaders | plugins/github_integration/github_plugin.py:27-33 | Accept and User-Agent are always set, the latter to `<username>-website`. Authorization is `token <t>` exactly when the token is set and non-empty. There is no other header. |
| GitHub.UserProfile | plugins/github_integration/github_plugin.py:62-83 | There is a profile exactly when the user fetch succeeded. Its login and html url are the API's. |
| GitHub.RepositoryDetails | plugins/github_integration/github_plugin.py:139-178 | Details exist exactly when the repository fetch succeeded and the languages fetch did not raise. The latest release is present exactly when the release fetch answered 200. |
| GitHub.ShapeRepository | plugins/github_integration/github_plugin.py:106-135 | A kept repository's entry is its base fields updated with `RepositoryDetails` of its full name. Those details are absent when that fetch failed. |
| GitHub.KeptIndices | plugins/github_integration/github_plugin.py:101-104 | The indices the filter keeps, in increasing order. An index is kept exactly when its repository is not a fork, or is a fork with at least 5 stars. |
| GitHub.RepositoriesFollowKeptIndices | plugins/github_integration/github_plugin.py:99-137 | The repository list has one entry per kept upstream repository, in upstream order. Entry k is `ShapeRepository` of the k-th kept repository. |
| GitHub.OnlyDetailsDependOnDetailFetches | plugins/github_integration/github_plugin.py:128-134 | Changing the detail answers changes only the `details` part of each entry, never the list or the base fields. |
| GitHub.FailedDetailsAreIsolated | plugins/github_integration/github_plugin.py:129-133 | One repository's failed details fetch leaves every other entry unchanged. That entry keeps its base fields, without details. |
| GitHub.GetRepositories | plugins/github_integration/github_plugin.py:85-137 | The loop gives a list exactly when the list fetch succeeded, and the list equals the filtered, shaped upstream list. |
| GitHub.ShapeActivity | plugins/github_integration/github_plugin.py:193-213 | Type, timestamps, visibility and repository are copied, and the repository url is `https://github.com/<repo>`. Each push event carries its commit count. Its message is the first commit's message ("" when that is absent), and it has no message when there are no commits. Create events carry the ref type. Issues events carry the action, and the issue's title and url; each is "" when absent. Other types carry no detail. |
| GitHub.GetRecentActivity | plugins/github_integration/github_plugin.py:180-221 | A failed events fetch gives the empty list, never an error. Otherwise every event is shaped, in order. |
| GitHub.ContributionStats | plugins/github_integration/github_plugin.py:223-236 | The statistics stub: all zeros and an empty calendar. |
| GitHub.FallbackData | plugins/github_integration/github_plugin.py:238-260 | The fallback record for a username. It is marked fallback, has no repositories, no activity and no contribution statistics, and its profile url is `https://github.com/<username>`. |
| GitHub.ContextData | plugins/github_integration/github_plugin.py:35-60 | The result is the fallback exactly when the profile or repository-list fetch failed. Otherwise it holds the profile, the shaped repositories, the activity and the statistics, with the current time. |
| GitHub.DataGenerator.GenerateContext | plugins/github_integration/github_plugin.py:22-60 | `github_data` becomes `ContextData` for the configured username. The default username is `bhowiebkr`. The server sees the headers from `RequestHeaders`. |
| Pipeline.Generator.AddGitHubData | plugins/github_integration/github_plugin.py:262-273 | With a context, `github` holds the generator's data and no other key changes. Without one, nothing is fetched and nothing changes. |
| YouTube.MediumUrl | plugins/youtube_integration/youtube_plugin.py:163 | The medium thumbnail url, or "" when the thumbnail or its url is missing. |
| YouTube.ResolveChannelId | plugins/youtube_integration/youtube_plugin.py:34-36 | A configured id is used as is. With no id and no username the id stays "". Otherwise the id is the first item's id of the username lookup: "" when the lookup succeeds with no items, and an error when the lookup fails. |
| YouTube.GetChannelStats | plugins/youtube_integration/youtube_plugin.py:87-113 | An error exactly when the statistics fetch failed. The empty record exactly when it has no items. |
| YouTube.VideoDetails | plugins/youtube_integration/youtube_plugin.py:173-200 | Details exist exactly when the video fetch succeeded with at least one item. A failure is swallowed. |
| YouTube.ShapeVideo | plugins/youtube_integration/youtube_plugin.py:150-168 | Watch and embed urls come from the video id. A description longer than 200 characters is cut to 200 plus "...". Missing details give "", 0 and 0. |
| YouTube.LatestVideos | plugins/youtube_integration/youtube_plugin.py:115-171 | A failed uploads fetch is an error. An uploads answer with no items gives no videos. Otherwise the result is an error exactly when the playlist-items fetch fails. If that fetch succeeds, video k is `ShapeVideo` of playlist item k, one per item. |
| YouTube.GetLatestVideos | plugins/youtube_integration/youtube_plugin.py:115-171 | The loop gives `LatestVideos`, with the same error cases and one shaped video per playlist item. Every video's url is its watch url. |
| YouTube.StoredVideosShaped | plugins/youtube_integration/youtube_plugin.py:150-171 | In non-fallback channel data, every video's url is its watch url and its description is at most 203 characters. A video whose details fetch failed has an empty duration and zero counts. |
| YouTube.ShapePlaylist | plugins/youtube_integration/youtube_plugin.py:219-232 | The playlist url comes from the id. A description longer than 150 characters is cut to 150 plus "...". |
| YouTube.GetPlaylists | plugins/youtube_integration/youtube_plugin.py:202-238 | A failed playlist fetch gives the empty list. Otherwise there is one entry per item, in order. |
| YouTube.FallbackData | plugins/youtube_integration/youtube_plugin.py:240-260 | The fallback record: marked fallback, with no videos or playlists and an empty id. It names the default channel `BryanHoward` and its url. |
| YouTube.ChannelData | plugins/youtube_integration/youtube_plugin.py:33-68 | The result is the fallback exactly when the id is unknown or empty, or the statistics or latest-videos fetch fails. Otherwise it holds the channel, its statistics and videos, the playlists and the time. |
| YouTube.ContextData | plugins/youtube_integration/youtube_plugin.py:22-31 | Without a non-empty API key the result is the fallback, and no request is made. With one, it is `ChannelData` of that key's answers. |
| YouTube.FallbackNamesDefaultChannel | plugins/youtube_integration/youtube_plugin.py:242-246 | Whatever settings were configured, the fallback names `BryanHoward` and `https://www.youtube.com/@BryanHoward`. |
| YouTube.ConfiguredIdSkipsLookup | plugins/youtube_integration/youtube_plugin.py:35-36 | With a channel id configured, the username lookup's answer never affects the result. |
| YouTube.PlaylistFailureIsNotFatal | plugins/youtube_integration/youtube_plugin.py:212-238 | A failed playlist fetch keeps the channel data, with an empty playlist list. |
| YouTube.DataGenerator.GenerateContext | plugins/youtube_integration/youtube_plugin.py:22-68 | `youtube_data` becomes `ContextData` of the key and the settings. |
| Pipeline.Generator.AddYouTubeData | plugins/youtube_integration/youtube_plugin.py:266-277 | With a context, `youtube` holds the generator's data and no other key changes. Without one, nothing changes. |
| Analytics.ConfigFor | plugins/analytics_monitoring/analytics_plugin.py:17-24 | Each id is its setting, or "". Each flag is its setting, or true. |
| Analytics.FlagsFor | plugins/analytics_monitoring/analytics_plugin.py:44-47 | Privacy mode turns IP anonymisation and Do-Not-Track on and both "allow" signals off. Without privacy mode it is the reverse. |
| Analytics.PrivacyInvertsFlags | plugins/analytics_monitoring/analytics_plugin.py:44-47 | Switching privacy mode inverts each of the four flags. |
| Analytics.GtagScript | plugins/analytics_monitoring/analytics_plugin.py:35-50 | The snippet mentions the measurement id and carries the rendered privacy flags. |
| Analytics.ScriptsFor | plugins/analytics_monitoring/analytics_plugin.py:28-252 | The gtag script is written exactly when `GTAG_ID` is non-empty, for that id and the privacy flag. Performance monitoring exactly when its flag is on (default on). Cookie consent likewise. No other key is written. |
| Analytics.DefaultsWriteBothScripts | plugins/analytics_monitoring/analytics_plugin.py:54-185 | With the performance and consent settings unset, both scripts are written. |
| Pipeline.Generator.AddAnalyticsContext | plugins/analytics_monitoring/analytics_plugin.py:12-26 | With a context, `analytics` holds `ConfigFor` of the settings and no other key changes. Without one, nothing changes. |
| Pipeline.WithScripts | plugins/analytics_monitoring/analytics_plugin.py:28-252 | The script keys of `ScriptsFor` are added to the context. Their values are the scripts. Every other existing key keeps its value. |
| Pipeline.WithScriptsOnlyWritesScriptKeys | plugins/analytics_monitoring/analytics_plugin.py:51-252 | No key is removed. Only `gtag_script`, `performance_script` and `cookie_consent_script` can be added or changed. |
| Pipeline.Generator.GenerateAnalyticsScripts | plugins/analytics_monitoring/analytics_plugin.py:28-252 | With a context, the context becomes `WithScripts`. Without one, nothing changes. |
| Text.TrimShape | plugins/seo_enhancement/seo_plugin.py:122 | Stripping gives a contiguous piece of the input. Every character dropped before it or after it is whitespace, and neither end of the piece is whitespace. |
| Text.TrimAllSpace | theme/static/js/main.js:446 | Trimming a string of whitespace only gives the empty string. |
| Text.Clip | plugins/seo_enhancement/seo_plugin.py:123-124 | A string longer than the limit becomes its first `keep` characters plus "...". Any other string is unchanged. |
| Text.Lower | scripts/new-post.py:16 | Lower-casing keeps the length. Each character is the ASCII lower case of the input's character. |
| NewPost.StripSpecial | scripts/new-post.py:16 | Deleting the characters outside `[\w\s-]` keeps only those characters, in order, and leaves a string of them unchanged. |
| NewPost.StripSpecialAppend | scripts/new-post.py:16 | The deletion works piecewise over a concatenation. |
| NewPost.CollapseSeparators | scripts/new-post.py:18 | Replacing runs of hyphens and whitespace by one hyphen never leaves two hyphens in a row. The result is empty exactly when the input is, and starts with a hyphen exactly when the input starts with a separator. |
| NewPost.CollapseKeepsChars | scripts/new-post.py:18 | Every character of the collapsed string is a hyphen or an input character that is not a separator. |
| NewPost.CollapseFixesSlugs | scripts/new-post.py:18 | A string without whitespace and without two hyphens in a row collapses to itself. |
| NewPost.LowerKeptString | scripts/new-post.py:16 | Lower-casing the kept characters gives only lower-case word characters and separators. |
| NewPost.LowerFixesSlugs | scripts/new-post.py:16 | Lower-casing leaves slug characters alone. |
| NewPost.CollapseGivesSlug | scripts/new-post.py:18 | Collapsing lower-case word characters and separators gives a slug. |
| NewPost.Slugify | scripts/new-post.py:13-19 | Every slug contains only lower-case word characters and hyphens, never two hyphens in a row, and no whitespace. |
| NewPost.SlugifyFixesSlugs | scripts/new-post.py:13-19 | A slug is its own slug. |
| NewPost.SlugifyIdempotent | scripts/new-post.py:13-19 | Slugifying twice gives the same as slugifying once. |
| NewPost.SlugifyExample | scripts/new-post.py:13-19 | "Hello, World! 2024" becomes "hello-world-2024". |
| NewPost.Template | scripts/new-post.py:42-62 | The skeleton has a `Title:` line with the title, a `Slug:` line with its slug, and `Status: draft`. |
| NewPost.ContentStore.CreateBlogPost | scripts/new-post.py:21-68 | An empty title changes nothing. When `content`, `content/blog` or the year directory is a file, making the directories fails and nothing changes. Otherwise those directories exist afterwards. A file or directory already at `<year dir>/<slug>.md` is refused, and the files are left as they were. Otherwise the template is written there and no other file changes. |
| NewPost.ContentStore.Run | scripts/new-post.py:70-75 | Anything but exactly one argument exits with 1 and changes nothing. The exit status is 0 exactly when there is one non-empty title, the directories can be made and the post path is free. Exit 0 means the files gain exactly the new post. Exit 1 means no file changed. |
| Validate.AddErrorIf | scripts/validate-site.py:23-26 | The error list grows by the message exactly when the condition holds. Warnings are untouched. |
| Validate.AddWarningIf | scripts/validate-site.py:28-31 | The warning list grows by the message exactly when the condition holds. Errors are untouched. |
| Validate.MissingFiles | scripts/validate-site.py:41-58 | Errors are only appended, at most one per required file. None is appended exactly when every file exists. Warnings are untouched. |
| Validate.MissingDirs | scripts/validate-site.py:60-67 | Errors are only appended, at most one per theme directory. None is appended exactly when every `theme/<dir>` exists. Warnings are untouched. |
| Validate.StructureCheckSound | scripts/validate-site.py:37-67 | The structure check adds no error exactly when every required file and theme directory exists, and it never adds a warning. |
| Validate.PageCheck | scripts/validate-site.py:76-107 | An unreadable page draws one error ("Error validating") and nothing else. A readable page draws one error exactly when it has no title, plus up to three warnings. |
| Validate.PagesCheck | scripts/validate-site.py:75-107 | The pages are checked in order, with at most one error per page. |
| Validate.CheckedPages | scripts/validate-site.py:73-75 | The first ten pages, or all of them when there are fewer. |
| Validate.PagesAfterTenIgnored | scripts/validate-site.py:75 | Pages after the tenth change nothing, and the HTML check logs at most ten errors. |
| Validate.PagesCheckErrors | scripts/validate-site.py:75-107 | The page check adds no error exactly when every checked page was read and has a title. |
| Validate.EmptyFiles | scripts/validate-site.py:113-127 | Errors are only appended, at most one per file. None is appended exactly when no file is empty. Warnings are untouched. |
| Validate.FeedCheck | scripts/validate-site.py:138-151 | A missing feed draws one warning. An unreadable feed, or one without `<feed` or `<rss`, draws one error. A valid feed draws nothing. |
| Validate.FeedListCheckErrors | scripts/validate-site.py:138-151 | The feed check adds no error exactly when every listed feed is missing or valid. |
| Validate.LiveCheck | scripts/validate-site.py:153-199 | A connection failure draws only a warning. Another exception, or a status other than 200, draws one error. A 200 draws one error per missing header, main area or footer, and one warning per missing menu or theme toggle. |
| Validate.LargeFiles | scripts/validate-site.py:205-211 | Only sizes over 1 MiB are kept. The result is empty exactly when no file is over 1 MiB. |
| Validate.LargeFilesCounts | scripts/validate-site.py:205-211 | Every size over 1 MiB is kept as often as it occurs, and no other size. |
| Validate.LargeFilesAppend | scripts/validate-site.py:205-211 | The large files of two listings, one after the other, are those of the first listing followed by those of the second, so the order of the walk is kept. |
| Validate.PerformanceCheck | scripts/validate-site.py:201-228 | No errors. One warning, with the count, when some file is over 1 MiB. One minification warning when base.css exists with more than 1000 lines. |
| Validate.AccessibilityCheck | scripts/validate-site.py:230-267 | Only warnings are ever appended. A 200 home page draws none exactly when every image has alt text and it has `<main>`, `<nav>` and a skip link. Another status draws nothing. A failed request draws one warning. |
| Validate.VerdictIgnoresWarningChecks | scripts/validate-site.py:300-314 | The performance and accessibility checks never change the error list. |
| Validate.Verdict | scripts/validate-site.py:293-314 | Running every check leaves the error list empty exactly when all of these hold: the structure is complete; the checked pages were read and have titles; no CSS or JS file is empty; every feed is missing or valid; the home page either refuses the connection or answers 200 with header, main area and footer. |
| Validate.SiteValidator.LogError | scripts/validate-site.py:23-26 | The message is appended to the errors. Warnings are unchanged. |
| Validate.SiteValidator.LogWarning | scripts/validate-site.py:28-31 | The message is appended to the warnings. Errors are unchanged. |
| Validate.SiteValidator.ValidateFileStructure | scripts/validate-site.py:37-67 | The two lists become `StructureCheck` of the old lists. |
| Validate.SiteValidator.LogMissingFiles | scripts/validate-site.py:53-58 | The loop appends what `MissingFiles` states. |
| Validate.SiteValidator.LogMissingDirs | scripts/validate-site.py:61-67 | The loop appends what `MissingDirs` states. |
| Validate.SiteValidator.ValidateHtmlPages | scripts/validate-site.py:69-107 | The two lists become `HtmlCheck` of the old lists: the first ten pages, in order. |
| Validate.SiteValidator.CheckPage | scripts/validate-site.py:76-107 | One page's messages, which are `PageCheck`. |
| Validate.SiteValidator.ValidateCssJsFiles | scripts/validate-site.py:109-127 | The two lists become `AssetCheck` of the old lists: CSS files, then JS files. |
| Validate.SiteValidator.LogEmptyFiles | scripts/validate-site.py:114-127 | The loop appends what `EmptyFiles` states. |
| Validate.SiteValidator.ValidateFeeds | scripts/validate-site.py:129-151 | The two lists become `FeedsCheck` of the old lists. |
| Validate.SiteValidator.CheckFeed | scripts/validate-site.py:138-151 | One feed's messages, which are `FeedCheck`. |
| Validate.SiteValidator.ValidateLiveSite | scripts/validate-site.py:153-199 | The two lists become `LiveCheck` of the old lists. |
| Validate.SiteValidator.ValidatePerformance | scripts/validate-site.py:201-228 | The loop collects the large files. The two lists become `PerformanceCheck` of the old lists. |
| Validate.SiteValidator.ValidateAccessibility | scripts/validate-site.py:230-267 | The two lists become `AccessibilityCheck` of the old lists. |
| Validate.SiteValidator.GenerateReport | scripts/validate-site.py:269-298 | Ready exactly when there are no errors. The total issue count is errors plus warnings. Nothing changes. |
| Validate.SiteValidator.RunAllValidations | scripts/validate-site.py:300-314 | The lists become `AllChecks` of the old lists. The run reports ready exactly when the error list is empty. From a fresh validator, that is exactly when `SitePasses`. |
| Validate.RunValidator | scripts/validate-site.py:316-326 | The base url is the first argument, else `http://localhost:8000`. The exit code is 0 exactly when the site passes, else 1. |
| Client.TokenLength | theme/static/js/main.js:190 | The length of the leading class token: no whitespace inside it, and whitespace or the end after it. |
| Client.Dedup | theme/static/js/main.js:190 | The ordered token set keeps exactly the tokens of the list, with no token twice. |
| Client.ClassListAdd | theme/static/js/main.js:190 | After `classList.add` of a token the attribute lacked, the attribute contains that token. |
| Client.FirstThemeMatch | theme/static/js/main.js:188 | The leftmost position, if any, at or after the start where `/theme-\w+/` matches. There is no match before it. |
| Client.WordEnd | theme/static/js/main.js:188 | The greedy `\w+` stops at the first character that is not a word character. |
| Client.ReplaceTheme | theme/static/js/main.js:188 | With no match the class string is unchanged. With a match, the text before the leftmost match and the text after its word are kept, and `theme-<theme>` stands between them. |
| Client.SetThemeApplies | theme/static/js/main.js:187-192 | `setTheme` leaves `theme-<theme>` in the class attribute, when the attribute holds a `theme-` word or no `theme-` text at all. |
| Client.TokensOccur | theme/static/js/main.js:189-190 | Every class token is a piece of the attribute text. |
| Client.NoThemeToken | theme/static/js/main.js:189-190 | An attribute with no `theme-` text has no token beginning with `theme-`. |
| Client.InitialTheme | theme/static/js/main.js:168 | The stored theme when it is present and non-empty, else "dark". |
| Client.NextThemeFlips | theme/static/js/main.js:180 | From dark or light, a click changes the theme, and a second click restores it. |
| Client.ThemeToggle.constructor | theme/static/js/main.js:165-177 | The theme comes from `InitialTheme`. The class, icon and label are applied only when the toggle exists, and then the label and icon show the theme. |
| Client.ThemeToggle.SetTheme | theme/static/js/main.js:187-192 | The class attribute becomes `SetThemeClass`. Nothing else changes. |
| Client.ThemeToggle.UpdateToggleIcon | theme/static/js/main.js:194-201 | The icon follows the theme when the icon exists, and the label names the next theme. Nothing else changes. |
| Client.ThemeToggle.Click | theme/static/js/main.js:179-184 | The theme flips, to dark or light. The class, icon and label follow the new theme, and the new theme is stored. When the label showed the old theme, the new theme is the one that label announced. From dark or light, the theme changes and the label then names the theme before the click. |
| Client.MobileNavigation.OpenMenu | theme/static/js/main.js:138-152 | The menu is open: nav active, `aria-expanded` "true", body overflow hidden. |
| Client.MobileNavigation.CloseMenu | theme/static/js/main.js:154-160 | The menu is closed: nav inactive, `aria-expanded` "false", body overflow "". |
| Client.MobileNavigation.ToggleMenu | theme/static/js/main.js:130-136 | The open state flips, and the attributes follow it. |
| Client.MobileNavigation.Click | theme/static/js/main.js:101-120 | The toggle button flips the menu. A nav link closes it. A click outside closes an open menu. Any other click changes nothing. |
| Client.MobileNavigation.KeyDown | theme/static/js/main.js:109-113 | Escape closes an open menu. Any other key, or a closed menu, changes nothing. |
| Client.MobileNavigation.Resize | theme/static/js/main.js:123-127 | A width above 768 closes an open menu. Otherwise nothing changes. |
| Client.HeaderEffects.OnScroll | theme/static/js/main.js:265-276 | The header is marked scrolled exactly when the offset is above 50, and the last offset is recorded. |
| Client.ScrollToTop.UpdateButton | theme/static/js/main.js:699-711 | The button is visible exactly when the offset is above 500. Otherwise it is hidden below the fold. |
| Client.Upto | theme/static/js/main.js:525-526 | Exactly the milestones at most the given percentage. |
| Client.ScrollStep | theme/static/js/main.js:534-536 | A milestone is newly tracked exactly when it lies above the old maximum and at most the new percentage. |
| Client.Crossed | theme/static/js/main.js:531-543 | The milestones, in list order, bounded by the two percentages. |
| Client.CrossedComplete | theme/static/js/main.js:533-542 | Every milestone above the old maximum and at most the new percentage is crossed. |
| Client.CrossedIncreasing | theme/static/js/main.js:525 | Crossing the increasing milestone list reports milestones in increasing order. |
| Client.ScrollDepth.OnScroll | theme/static/js/main.js:528-546 | The maximum rises to the new percentage. The tracked set is exactly the milestones reached. While `gtag` is defined, a new maximum reports the milestones crossed, in order. Otherwise nothing is reported. |
| Client.ScrollDepth.NewMilestonesAbove | theme/static/js/main.js:531-543 | Milestones reported on one scroll come after every earlier report, and all of them are reached. |
| Client.ReportedOnce | theme/static/js/main.js:534-541 | No milestone is ever reported twice. |
| Client.IndexOfFirst | theme/static/js/main.js:458 | The first occurrence of a character, or none when it does not occur. |
| Client.ScanEmailCharsIff | theme/static/js/main.js:458 | The scan accepts exactly the strings of characters outside `[\s@]`. |
| Client.EmailTestMatchesPattern | theme/static/js/main.js:458-459 | The email test accepts exactly the strings `/^[^\s@]+@[^\s@]+\.[^\s@]+$/` matches, in both directions. |
| Client.FieldError | theme/static/js/main.js:445-466 | A field's error, if any, is "This field is required" or "Please enter a valid email address". |
| Client.FieldErrorMeaning | theme/static/js/main.js:445-466 | The value is the trimmed input. A non-empty email value the pattern rejects gives the email message. A required empty value gives the required message. Anything else is valid. |
| Client.BlankOptionalFieldValid | theme/static/js/main.js:446-457 | A blank optional field is never in error, whatever its type. |
| Client.FieldView.ShowValidation | theme/static/js/main.js:468-488 | Valid removes the error class and hides an empty message. Invalid adds the class and shows the message. |
| Client.FieldView.ValidateField | theme/static/js/main.js:445-466 | Valid exactly when `FieldError` is none. The view shows that outcome, and the error class is the negation of the result. |
| Client.ValidateForm | theme/static/js/main.js:490-501 | Valid exactly when every required field passes. Every required field shows its own outcome: there is no short-circuit. |
| Client.Submit | theme/static/js/main.js:405-409 | Submission is prevented exactly when the form is not valid. |

## Left out

- Network I/O: `requests.get`, its 10-second timeout and JSON decoding are not modelled. A GitHub or YouTube answer is one of three outcomes:
  - `Ok` is a 200 with a body holding the keys read;
  - `NotOk` is another status;
  - `Fail` is an exception from the network, from decoding or from a missing key.
  The answers are functions of the request that the caller supplies. Status codes other than 200 are not distinguished from one another.
- JSON `null` values: modelled as absent keys. Python's `.get(key, default)` returns `None` for a present `null`; the model gives the default.
- Character classes: ASCII only. Python `\s`/`\w`/`strip`, JavaScript `\s`/`trim` and `toLowerCase`, and the DOM's whitespace are modelled on their ASCII members. Unicode spaces, letters and case mappings are not modelled.
- Clock, environment and timestamps: values are opaque strings passed in. This covers `datetime.now().isoformat()`, the post's `%Y-%m-%d %H:%M` stamp and year, and the environment variables `GITHUB_TOKEN` and `YOUTUBE_API_KEY`.
- Plugin wiring and output: `register()`, signal wiring, `get_generators`, logging and `print` output are not modelled; only the lists and context writes they accompany are.
- Analytics scripts: the literal JavaScript bodies of the performance-monitoring and cookie-consent snippets are abstract constants. Their own browser behaviour (Web Vitals, consent banner) is not part of this model. The gtag snippet is rendered only as far as its id and flags.
- Validator inputs: HTML parsing, file globbing and file reading are abstracted to their results. These are a page's findings, the sizes of files, a feed's text or read error, and base.css's line count. A `stat` failure and a crash reading base.css (both uncaught in the script) are not modelled.
- Validator home page: `validate_live_site` and `validate_accessibility` each make their own GET of the base url. The model gives both the same answer.
- Browser environment: the page's DOM, event dispatch, `throttle`/`debounce` timing, focus handling, the focus trap, `localStorage` errors and `pageYOffset || scrollTop` are not modelled. Each listener is a method called with the values it reads. The stored theme is a field.
- Client.ScrollDepth.OnScroll: takes the already rounded integer percentage. `Math.round` of the document-height ratio is not modelled.
- Client.FieldView: `value` is the field's current text when validated. Typing events and the placement of the error element (nearest `.form-group`, else the parent) are not modelled. Each field has its own error element, which is an abstraction: in the page script, fields inside one `.form-group` share its first `.error-message` (`theme/static/js/main.js:470-477`). After `validateForm` that element shows the last such field's outcome; each input's own `error` class is unaffected. Only whether an error element exists, its text and its display are.
- Client.ClassListAdd: states only that a newly added token ends up in the attribute. The order of the other tokens and the removal of duplicates are modelled in its body (`Tokens`, `Dedup`, `Serialize`) but not stated for the result. `Dedup` states no repeated token, but not that it keeps first occurrences in order. The exception `classList.add` throws for a token containing whitespace is not modelled. The token added is `theme-<theme>`, and the theme is whatever local storage held (`theme/static/js/main.js:168`), so a stored value with whitespace would make the page script throw there.
- Client.ReplaceTheme: inserts `theme-<theme>` literally. JavaScript's `replace` (`theme/static/js/main.js:188`) would expand `$`-patterns such as `$&` in a stored theme; that is not modelled.
- Client.SetThemeApplies: covers only attributes that have a `theme-\w+` word or no `theme-` text at all. For an attribute like `theme-` followed by a non-word character, `setTheme` neither replaces nor adds a class.
- Other page-script features are not modelled, because each reads or writes browser state (layout, focus, timers, the clipboard, event objects) that the model has no counterpart for:
  - the `utils` helpers `debounce`, `throttle`, `isInViewport` and `focusTrap` (`theme/static/js/main.js:17-85`);
  - `SmoothScrolling`, which scrolls to an in-page anchor 80 pixels above its element and then focuses it (`theme/static/js/main.js:221-251`);
  - `LazyLoading`, whose IntersectionObserver gives each lazy image the `loaded` class once it enters the viewport, with a 50px root margin (`theme/static/js/main.js:281-306`);
  - `CodeCopyButtons`, which adds a copy button per code block and copies through the clipboard API, with a hidden-textarea fallback (`theme/static/js/main.js:309-379`);
  - the floating labels and other input handlers of `FormEnhancement`; its email check is modelled;
  - `YouTubeEnhancements`, which sets hover and focus styles on video cards (`theme/static/js/main.js:554-595`);
  - `GitHubEnhancements`, which makes a repository card with a repository link behave as a button: a click whose target is not an anchor element, or Enter or Space, follows the link (`theme/static/js/main.js:598-646`).

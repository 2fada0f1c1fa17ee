/**
 * The site validator (scripts/validate-site.py): seven checks that append messages
 * to an error list and a warning list, and a report whose verdict depends on the
 * errors alone. The output directory and the HTTP answers are inputs. Each check is
 * specified as a function from the two lists before it to the two lists after it.
 */
module Validate {
  import opened Text

  // ---- the two lists ----

  /** The validator's error list and warning list. */
  datatype Log = Log(errors: seq<string>, warnings: seq<string>)

  const EmptyLog := Log([], [])

  /** `l` with `msg` appended to the errors when `bad`. */
  function AddErrorIf(l: Log, bad: bool, msg: string): (r: Log)
    ensures r.warnings == l.warnings && l.errors <= r.errors
    ensures |r.errors| == |l.errors| + Count(bad)
  {
    if bad then l.(errors := l.errors + [msg]) else l
  }

  /** `l` with `msg` appended to the warnings when `bad`. */
  function AddWarningIf(l: Log, bad: bool, msg: string): (r: Log)
    ensures r.errors == l.errors && l.warnings <= r.warnings
    ensures |r.warnings| == |l.warnings| + Count(bad)
  {
    if bad then l.(warnings := l.warnings + [msg]) else l
  }

  /** 1 when `bad`, else 0. */
  function Count(bad: bool): nat {
    if bad then 1 else 0
  }

  /** `r` extends `l`: both lists only grew. */
  predicate Extends(r: Log, l: Log) {
    l.errors <= r.errors && l.warnings <= r.warnings
  }

  // ---- what the checks look at ----

  /** What BeautifulSoup finds in one generated page. */
  datatype PageTags = PageTags(hasTitle: bool, hasDescription: bool, hasStructuredData: bool, hasOpenGraph: bool)

  /** A generated page: parsed, or failing to open, read or parse (with the exception's text). */
  datatype PageRead = Parsed(tags: PageTags) | PageUnreadable(reason: string)
  datatype Page = Page(path: string, read: PageRead)

  datatype SizedFile = SizedFile(name: string, size: nat)

  /** An existing feed file: its text, or the exception reading it raised. */
  datatype FeedRead = FeedText(content: string) | FeedUnreadable(reason: string)

  /**
   * The generated output directory: the relative paths that exist, the HTML pages
   * (recursive glob) in glob order, the theme's CSS and JS files with their sizes,
   * the size of every file, the text of each feed, and the line count of base.css.
   */
  datatype Output = Output(
    existing: set<string>, htmlPages: seq<Page>, cssFiles: seq<SizedFile>, jsFiles: seq<SizedFile>,
    fileSizes: seq<nat>, feeds: map<string, FeedRead>, baseCssLines: nat)

  /** What the live home page shows. */
  datatype HomePage = HomePage(
    hasSiteHeader: bool, hasSiteMain: bool, hasSiteFooter: bool,
    hasMobileMenuToggle: bool, hasThemeToggle: bool,
    imagesWithoutAlt: nat, hasMainElement: bool, hasNav: bool, hasSkipLink: bool)

  /** The answer to a GET of the base URL. */
  datatype Fetch =
    | ConnectionRefused(reason: string)
    | RequestFailed(reason: string)
    | Answered(status: nat, page: HomePage)

  // ---- messages ----

  const MissingFilePrefix := "Missing required file: "
  const MissingDirPrefix := "Missing theme directory: theme/"
  const PageErrorPrefix := "Error validating "
  const NoTitle := ": Missing <title> tag"
  const NoDescription := ": Missing meta description"
  const NoStructuredData := ": Missing structured data"
  const NoOpenGraph := ": Missing Open Graph tags"
  const FeedMissingPrefix := "Feed not found: "
  const InvalidFeedPrefix := "Invalid feed format: "
  const FeedErrorPrefix := "Error reading feed "
  const NoConnection := "Could not connect to live site (server may not be running)"
  const LiveErrorPrefix := "Error validating live site: "
  const StatusPrefix := "Site returned status code: "
  const NoHeader := "Site header not found"
  const NoMainArea := "Main content area not found"
  const NoFooter := "Site footer not found"
  const NoMobileNav := "Mobile navigation not found"
  const NoThemeToggle := "Theme toggle not found"
  const LargeFilesSuffix := " files larger than 1MB:"
  const MinifyMessage := "CSS files might benefit from minification"
  const NoAltSuffix := " images without alt attributes"
  const AccessibilityErrorPrefix := "Could not validate accessibility: "
  const NoMainElement := "Missing semantic <main> element"
  const NoNavElement := "Missing semantic <nav> element"
  const NoSkipLink := "Missing skip to main content link"

  // ---- file structure ----

  const RequiredFiles: seq<string> := [
    "index.html", "theme/css/variables.css", "theme/css/base.css", "theme/css/components.css",
    "theme/css/layout.css", "theme/css/responsive.css", "theme/js/main.js",
    "feeds/all.atom.xml", "sitemap.xml"]

  const ThemeDirs: seq<string> := ["css", "js", "images"]

  /** One error per missing file, in list order; no warnings. */
  function MissingFiles(l: Log, files: seq<string>, existing: set<string>): (r: Log)
    decreases |files|
    ensures r.warnings == l.warnings && l.errors <= r.errors && |r.errors| <= |l.errors| + |files|
    ensures |r.errors| == |l.errors| <==> forall i :: 0 <= i < |files| ==> files[i] in existing
  {
    if files == [] then l
    else
      var init, f := files[..|files| - 1], files[|files| - 1];
      assert forall i :: 0 <= i < |init| ==> init[i] == files[i];
      AddErrorIf(MissingFiles(l, init, existing), f !in existing, MissingFilePrefix + f)
  }

  /** One error per missing theme directory, in list order; no warnings. */
  function MissingDirs(l: Log, dirs: seq<string>, existing: set<string>): (r: Log)
    decreases |dirs|
    ensures r.warnings == l.warnings && l.errors <= r.errors && |r.errors| <= |l.errors| + |dirs|
    ensures |r.errors| == |l.errors| <==> forall i :: 0 <= i < |dirs| ==> "theme/" + dirs[i] in existing
  {
    if dirs == [] then l
    else
      var init, d := dirs[..|dirs| - 1], dirs[|dirs| - 1];
      assert forall i :: 0 <= i < |init| ==> init[i] == dirs[i];
      AddErrorIf(MissingDirs(l, init, existing), "theme/" + d !in existing, MissingDirPrefix + d + "/")
  }

  /** `validate_file_structure`: the required files, then the theme directories. */
  function StructureCheck(l: Log, out: Output): Log {
    MissingDirs(MissingFiles(l, RequiredFiles, out.existing), ThemeDirs, out.existing)
  }

  /** Every required file and theme directory exists. */
  predicate StructureComplete(out: Output) {
    && (forall i :: 0 <= i < |RequiredFiles| ==> RequiredFiles[i] in out.existing)
    && (forall i :: 0 <= i < |ThemeDirs| ==> "theme/" + ThemeDirs[i] in out.existing)
  }

  /**
   * The structure check logs errors only, at most one per required file and theme
   * directory, and none exactly when all nine files and three directories exist.
   */
  lemma StructureCheckSound(l: Log, out: Output)
    ensures StructureCheck(l, out).warnings == l.warnings
    ensures l.errors <= StructureCheck(l, out).errors
    ensures |StructureCheck(l, out).errors| <= |l.errors| + |RequiredFiles| + |ThemeDirs|
    ensures StructureCheck(l, out).errors == l.errors <==> StructureComplete(out)
  {
    var files := MissingFiles(l, RequiredFiles, out.existing);
    var r := MissingDirs(files, ThemeDirs, out.existing);
    if r.errors == l.errors {
      assert |files.errors| == |l.errors|;
    }
    if StructureComplete(out) {
      assert |files.errors| == |l.errors|;
      assert files.errors == l.errors;
    }
  }

  // ---- HTML pages ----

  /** At most this many pages are checked. */
  const MaxPages := 10

  /**
   * One page: an unreadable page draws one error; a parsed one an error iff it has
   * no title and a warning for each of description, structured data and Open Graph
   * tags it lacks.
   */
  function PageCheck(l: Log, p: Page): (r: Log)
    ensures Extends(r, l)
    ensures |r.errors| == |l.errors| + Count(!(p.read.Parsed? && p.read.tags.hasTitle))
    ensures p.read.PageUnreadable? ==> r.warnings == l.warnings
    ensures p.read.Parsed? ==>
              |r.warnings| == |l.warnings| + Count(!p.read.tags.hasDescription)
                              + Count(!p.read.tags.hasStructuredData) + Count(!p.read.tags.hasOpenGraph)
  {
    match p.read
    case PageUnreadable(reason) => AddErrorIf(l, true, PageErrorPrefix + p.path + ": " + reason)
    case Parsed(t) =>
      var titled := AddErrorIf(l, !t.hasTitle, p.path + NoTitle);
      var described := AddWarningIf(titled, !t.hasDescription, p.path + NoDescription);
      var structured := AddWarningIf(described, !t.hasStructuredData, p.path + NoStructuredData);
      AddWarningIf(structured, !t.hasOpenGraph, p.path + NoOpenGraph)
  }

  /** A list of pages, in order: at most one error per page. */
  function PagesCheck(l: Log, pages: seq<Page>): (r: Log)
    decreases |pages|
    ensures Extends(r, l) && |r.errors| <= |l.errors| + |pages|
  {
    if pages == [] then l else PageCheck(PagesCheck(l, pages[..|pages| - 1]), pages[|pages| - 1])
  }

  /** The pages `validate_html_pages` looks at: the first ten. */
  function CheckedPages(pages: seq<Page>): (c: seq<Page>)
    ensures |c| <= MaxPages && |c| <= |pages| && c == pages[..|c|]
    ensures |pages| <= MaxPages ==> c == pages
  {
    if |pages| <= MaxPages then pages else pages[..MaxPages]
  }

  /** `validate_html_pages`. */
  function HtmlCheck(l: Log, out: Output): Log {
    PagesCheck(l, CheckedPages(out.htmlPages))
  }

  /** The HTML check logs at most ten errors, and pages after the tenth change nothing. */
  lemma PagesAfterTenIgnored(l: Log, out: Output, extra: seq<Page>)
    ensures |HtmlCheck(l, out).errors| <= |l.errors| + MaxPages
    ensures |out.htmlPages| >= MaxPages ==> HtmlCheck(l, out.(htmlPages := out.htmlPages + extra)) == HtmlCheck(l, out)
  {
    if |out.htmlPages| >= MaxPages {
      assert (out.htmlPages + extra)[..MaxPages] == out.htmlPages[..MaxPages];
    }
  }

  // ---- CSS and JS ----

  /** One error per empty file, in glob order; `kind` is "CSS" or "JS". */
  function EmptyFiles(l: Log, files: seq<SizedFile>, kind: string): (r: Log)
    decreases |files|
    ensures r.warnings == l.warnings && l.errors <= r.errors && |r.errors| <= |l.errors| + |files|
    ensures |r.errors| == |l.errors| <==> forall i :: 0 <= i < |files| ==> files[i].size > 0
  {
    if files == [] then l
    else
      var init, f := files[..|files| - 1], files[|files| - 1];
      assert forall i :: 0 <= i < |init| ==> init[i] == files[i];
      AddErrorIf(EmptyFiles(l, init, kind), f.size == 0, "Empty " + kind + " file: " + f.name)
  }

  /** `validate_css_js_files`: the CSS files, then the JS files. */
  function AssetCheck(l: Log, out: Output): Log {
    EmptyFiles(EmptyFiles(l, out.cssFiles, "CSS"), out.jsFiles, "JS")
  }

  // ---- feeds ----

  const FeedFiles: seq<string> := ["feeds/all.atom.xml", "feeds/all.rss.xml"]

  /** How an existing feed reads; one listed as existing without contents counts as unreadable. */
  function ReadFeed(path: string, out: Output): FeedRead {
    if path in out.feeds then out.feeds[path] else FeedUnreadable("No such file or directory")
  }

  /** A readable feed is valid when it holds `<feed` or `<rss`. */
  predicate LooksLikeFeed(content: string) {
    Contains(content, "<feed") || Contains(content, "<rss")
  }

  /**
   * One feed: a missing feed draws a warning; an unreadable one an error; a readable
   * one an error iff it does not look like a feed.
   */
  function FeedCheck(l: Log, path: string, out: Output): (r: Log)
    ensures path !in out.existing ==> r == l.(warnings := l.warnings + [FeedMissingPrefix + path])
    ensures path in out.existing ==> r.warnings == l.warnings && l.errors <= r.errors && |r.errors| <= |l.errors| + 1
    ensures path in out.existing && ReadFeed(path, out).FeedUnreadable? ==> |r.errors| == |l.errors| + 1
    ensures path in out.existing && ReadFeed(path, out).FeedText? ==>
              (r == l <==> LooksLikeFeed(ReadFeed(path, out).content))
  {
    if path !in out.existing then AddWarningIf(l, true, FeedMissingPrefix + path)
    else
      match ReadFeed(path, out)
      case FeedUnreadable(reason) => AddErrorIf(l, true, FeedErrorPrefix + path + ": " + reason)
      case FeedText(content) => AddErrorIf(l, !LooksLikeFeed(content), InvalidFeedPrefix + path)
  }

  /** A list of feeds, in order. */
  function FeedListCheck(l: Log, paths: seq<string>, out: Output): Log
    decreases |paths|
  {
    if paths == [] then l else FeedCheck(FeedListCheck(l, paths[..|paths| - 1], out), paths[|paths| - 1], out)
  }

  /** `validate_feeds`. */
  function FeedsCheck(l: Log, out: Output): Log {
    FeedListCheck(l, FeedFiles, out)
  }

  // ---- live site ----

  /**
   * `validate_live_site`: a refused connection draws only a warning; any other
   * failure, or a status other than 200, one error; a 200 an error for each of header,
   * main area and footer that is missing and a warning for each missing toggle.
   */
  function LiveCheck(l: Log, home: Fetch): (r: Log)
    ensures Extends(r, l)
    ensures home.ConnectionRefused? ==> r.errors == l.errors && |r.warnings| == |l.warnings| + 1
    ensures home.RequestFailed? || (home.Answered? && home.status != 200) ==>
              |r.errors| == |l.errors| + 1 && r.warnings == l.warnings
    ensures home.Answered? && home.status == 200 ==>
              && |r.errors| == |l.errors| + Count(!home.page.hasSiteHeader) + Count(!home.page.hasSiteMain)
                               + Count(!home.page.hasSiteFooter)
              && |r.warnings| == |l.warnings| + Count(!home.page.hasMobileMenuToggle) + Count(!home.page.hasThemeToggle)
  {
    match home
    case ConnectionRefused(_) => AddWarningIf(l, true, NoConnection)
    case RequestFailed(reason) => AddErrorIf(l, true, LiveErrorPrefix + reason)
    case Answered(status, page) =>
      if status != 200 then AddErrorIf(l, true, StatusPrefix + NatToString(status))
      else
        var header := AddErrorIf(l, !page.hasSiteHeader, NoHeader);
        var main := AddErrorIf(header, !page.hasSiteMain, NoMainArea);
        var footer := AddErrorIf(main, !page.hasSiteFooter, NoFooter);
        var mobile := AddWarningIf(footer, !page.hasMobileMenuToggle, NoMobileNav);
        AddWarningIf(mobile, !page.hasThemeToggle, NoThemeToggle)
  }

  // ---- performance ----

  /** 1 MiB: a file is large when strictly bigger. */
  const MiB := 1024 * 1024

  /** More base.css lines than this draw the minification warning. */
  const MaxCssLines := 1000

  const BaseCss := "theme/css/base.css"

  /** The sizes of the large files, in order. */
  function LargeFiles(sizes: seq<nat>): (large: seq<nat>)
    decreases |sizes|
    ensures |large| <= |sizes|
    ensures forall i :: 0 <= i < |large| ==> large[i] > MiB
    ensures large == [] <==> forall i :: 0 <= i < |sizes| ==> sizes[i] <= MiB
  {
    if sizes == [] then []
    else
      var init := sizes[..|sizes| - 1];
      assert forall i :: 0 <= i < |init| ==> init[i] == sizes[i];
      LargeFiles(init) + (if sizes[|sizes| - 1] > MiB then [sizes[|sizes| - 1]] else [])
  }

  /** Every size over 1 MiB is kept, as often as it occurs, and no other. */
  lemma {:induction false} LargeFilesCounts(sizes: seq<nat>, x: nat)
    ensures multiset(LargeFiles(sizes))[x] == if x > MiB then multiset(sizes)[x] else 0
    decreases |sizes|
  {
    if sizes != [] {
      var last := sizes[|sizes| - 1];
      var init := sizes[..|sizes| - 1];
      assert sizes == init + [last];
      LargeFilesCounts(init, x);
      assert LargeFiles(sizes) == LargeFiles(init) + (if last > MiB then [last] else []);
    }
  }

  /** One more file at the end of a listing. */
  lemma LargeFilesSnoc(s: seq<nat>, x: nat)
    ensures LargeFiles(s + [x]) == LargeFiles(s) + (if x > MiB then [x] else [])
  {
    assert (s + [x])[..|s + [x]| - 1] == s;
  }

  /** The large files of two listings one after the other, in that order. */
  lemma {:induction false} LargeFilesAppend(a: seq<nat>, b: seq<nat>)
    ensures LargeFiles(a + b) == LargeFiles(a) + LargeFiles(b)
    decreases |b|
  {
    if b == [] {
      assert a + b == a;
    } else {
      var binit, last := b[..|b| - 1], b[|b| - 1];
      assert b == binit + [last];
      assert a + b == (a + binit) + [last];
      LargeFilesSnoc(a + binit, last);
      LargeFilesSnoc(binit, last);
      LargeFilesAppend(a, binit);
    }
  }

  /** base.css exists and is over the line limit. */
  predicate CssTooLong(out: Output) {
    BaseCss in out.existing && out.baseCssLines > MaxCssLines
  }

  /**
   * `validate_performance`: warnings only; one naming how many files exceed 1 MiB when
   * any does, then one when base.css is over 1000 lines.
   */
  function PerformanceCheck(l: Log, out: Output): (r: Log)
    ensures r.errors == l.errors && l.warnings <= r.warnings
    ensures |r.warnings| == |l.warnings| + Count(LargeFiles(out.fileSizes) != []) + Count(CssTooLong(out))
    ensures LargeFiles(out.fileSizes) != [] ==>
              r.warnings[|l.warnings|] == "Found " + NatToString(|LargeFiles(out.fileSizes)|) + LargeFilesSuffix
    ensures CssTooLong(out) ==> r.warnings[|r.warnings| - 1] == MinifyMessage
  {
    var large := LargeFiles(out.fileSizes);
    var sized := AddWarningIf(l, large != [], "Found " + NatToString(|large|) + LargeFilesSuffix);
    AddWarningIf(sized, CssTooLong(out), MinifyMessage)
  }

  // ---- accessibility ----

  /** The page answered 200 and has no accessibility gap. */
  predicate Accessible(page: HomePage) {
    page.imagesWithoutAlt == 0 && page.hasMainElement && page.hasNav && page.hasSkipLink
  }

  /**
   * `validate_accessibility`: warnings only; nothing unless the page answered 200, and
   * then nothing exactly when every image has alt text and the page has a main
   * element, a nav element and a skip link.
   */
  function AccessibilityCheck(l: Log, home: Fetch): (r: Log)
    ensures r.errors == l.errors && l.warnings <= r.warnings
    ensures home.Answered? && home.status != 200 ==> r == l
    ensures home.ConnectionRefused? || home.RequestFailed? ==> |r.warnings| == |l.warnings| + 1
    ensures home.Answered? && home.status == 200 ==> (r == l <==> Accessible(home.page))
  {
    match home
    case ConnectionRefused(reason) => AddWarningIf(l, true, AccessibilityErrorPrefix + reason)
    case RequestFailed(reason) => AddWarningIf(l, true, AccessibilityErrorPrefix + reason)
    case Answered(status, page) =>
      if status != 200 then l
      else
        var images := AddWarningIf(l, page.imagesWithoutAlt > 0, "Found " + NatToString(page.imagesWithoutAlt) + NoAltSuffix);
        var main := AddWarningIf(images, !page.hasMainElement, NoMainElement);
        var nav := AddWarningIf(main, !page.hasNav, NoNavElement);
        AddWarningIf(nav, !page.hasSkipLink, NoSkipLink)
  }

  // ---- the whole run ----

  /** The five checks that can log errors, in order. */
  function ErrorChecks(l: Log, out: Output, home: Fetch): Log {
    LiveCheck(FeedsCheck(AssetCheck(HtmlCheck(StructureCheck(l, out), out), out), out), home)
  }

  /** `run_all_validations`: the seven checks in order. */
  function AllChecks(l: Log, out: Output, home: Fetch): Log {
    AccessibilityCheck(PerformanceCheck(ErrorChecks(l, out, home), out), home)
  }

  /** The performance and accessibility checks never change the verdict. */
  lemma VerdictIgnoresWarningChecks(l: Log, out: Output, home: Fetch)
    ensures AllChecks(l, out, home).errors == ErrorChecks(l, out, home).errors
  {
  }

  /** Every checked page parsed and has a title. */
  predicate PagesClean(pages: seq<Page>) {
    forall i :: 0 <= i < |pages| ==> pages[i].read.Parsed? && pages[i].read.tags.hasTitle
  }

  /** The page check adds no error exactly when every page parsed and has a title. */
  lemma {:induction false} PagesCheckErrors(l: Log, pages: seq<Page>)
    ensures |PagesCheck(l, pages).errors| == |l.errors| <==> PagesClean(pages)
    decreases |pages|
  {
    if pages != [] {
      var init := pages[..|pages| - 1];
      PagesCheckErrors(l, init);
      assert forall i :: 0 <= i < |init| ==> init[i] == pages[i];
    }
  }

  /** A feed that draws no error: missing, or readable and looking like a feed. */
  predicate FeedOk(path: string, out: Output) {
    path !in out.existing || (ReadFeed(path, out).FeedText? && LooksLikeFeed(ReadFeed(path, out).content))
  }

  /** The feed check adds no error exactly when every feed is missing or valid. */
  lemma {:induction false} FeedListCheckErrors(l: Log, paths: seq<string>, out: Output)
    ensures l.errors <= FeedListCheck(l, paths, out).errors
    ensures |FeedListCheck(l, paths, out).errors| == |l.errors| <==> forall i :: 0 <= i < |paths| ==> FeedOk(paths[i], out)
    decreases |paths|
  {
    if paths != [] {
      var init := paths[..|paths| - 1];
      FeedListCheckErrors(l, init, out);
      assert forall i :: 0 <= i < |init| ==> init[i] == paths[i];
    }
  }

  /** A home page answer that draws no error: no connection at all, or a 200 with header, main area and footer. */
  predicate LiveOk(home: Fetch) {
    home.ConnectionRefused?
    || (home.Answered? && home.status == 200 && home.page.hasSiteHeader && home.page.hasSiteMain && home.page.hasSiteFooter)
  }

  /** What the whole run needs to end with no error. */
  predicate SitePasses(out: Output, home: Fetch) {
    && StructureComplete(out)
    && PagesClean(CheckedPages(out.htmlPages))
    && (forall i :: 0 <= i < |out.cssFiles| ==> out.cssFiles[i].size > 0)
    && (forall i :: 0 <= i < |out.jsFiles| ==> out.jsFiles[i].size > 0)
    && (forall i :: 0 <= i < |FeedFiles| ==> FeedOk(FeedFiles[i], out))
    && LiveOk(home)
  }

  /**
   * The verdict of `generate_report`: the run logs no error exactly when every required
   * file exists, the checked pages have titles, no CSS or JS file is empty, each feed
   * is missing or valid, and the home page is unreachable or complete.
   */
  lemma {:induction false} Verdict(out: Output, home: Fetch)
    ensures AllChecks(EmptyLog, out, home).errors == [] <==> SitePasses(out, home)
  {
    var s := StructureCheck(EmptyLog, out);
    StructureCheckSound(EmptyLog, out);
    var h := HtmlCheck(s, out);
    PagesCheckErrors(s, CheckedPages(out.htmlPages));
    var css := EmptyFiles(h, out.cssFiles, "CSS");
    var a := EmptyFiles(css, out.jsFiles, "JS");
    var f := FeedsCheck(a, out);
    FeedListCheckErrors(a, FeedFiles, out);
    var v := LiveCheck(f, home);
    assert |v.errors| == 0 <==> |s.errors| == 0 && |h.errors| == 0 && |css.errors| == 0 && |a.errors| == 0
                                 && |f.errors| == 0 && |v.errors| == |f.errors|;
    assert |v.errors| == |f.errors| <==> LiveOk(home);
  }

  const DefaultBaseUrl := "http://localhost:8000"

  /** `SiteValidator`: the base URL and the two append-only message lists. */
  class SiteValidator {
    const baseUrl: string
    var errors: seq<string>
    var warnings: seq<string>

    constructor (baseUrl: string)
      ensures this.baseUrl == baseUrl && State() == EmptyLog
    {
      this.baseUrl := baseUrl;
      errors := [];
      warnings := [];
    }

    /** The two lists as a value. */
    function State(): Log
      reads this
    {
      Log(errors, warnings)
    }

    /** `log_error`. */
    method LogError(message: string)
      modifies this
      ensures State() == old(State()).(errors := old(errors) + [message])
    {
      errors := errors + [message];
    }

    /** `log_warning`. */
    method LogWarning(message: string)
      modifies this
      ensures State() == old(State()).(warnings := old(warnings) + [message])
    {
      warnings := warnings + [message];
    }

    /** `validate_file_structure`. */
    method ValidateFileStructure(out: Output)
      modifies this
      ensures State() == StructureCheck(old(State()), out)
    {
      LogMissingFiles(RequiredFiles, out.existing);
      LogMissingDirs(ThemeDirs, out.existing);
    }

    /** The first loop of `validate_file_structure`. */
    method LogMissingFiles(files: seq<string>, existing: set<string>)
      modifies this
      ensures State() == MissingFiles(old(State()), files, existing)
    {
      for i := 0 to |files|
        invariant State() == MissingFiles(old(State()), files[..i], existing)
      {
        assert files[..i + 1][..i] == files[..i];
        if files[i] !in existing {
          LogError(MissingFilePrefix + files[i]);
        }
      }
      assert files[..|files|] == files;
    }

    /** The second loop of `validate_file_structure`. */
    method LogMissingDirs(dirs: seq<string>, existing: set<string>)
      modifies this
      ensures State() == MissingDirs(old(State()), dirs, existing)
    {
      for i := 0 to |dirs|
        invariant State() == MissingDirs(old(State()), dirs[..i], existing)
      {
        assert dirs[..i + 1][..i] == dirs[..i];
        if "theme/" + dirs[i] !in existing {
          LogError(MissingDirPrefix + dirs[i] + "/");
        }
      }
      assert dirs[..|dirs|] == dirs;
    }

    /** `validate_html_pages`: the first ten pages, in glob order. */
    method ValidateHtmlPages(out: Output)
      modifies this
      ensures State() == HtmlCheck(old(State()), out)
    {
      var pages := CheckedPages(out.htmlPages);
      for i := 0 to |pages|
        invariant State() == PagesCheck(old(State()), pages[..i])
      {
        assert pages[..i + 1][..i] == pages[..i];
        CheckPage(pages[i]);
      }
      assert pages[..|pages|] == pages;
    }

    /** The body of the loop of `validate_html_pages`, for one page. */
    method CheckPage(p: Page)
      modifies this
      ensures State() == PageCheck(old(State()), p)
    {
      match p.read
      case PageUnreadable(reason) =>
        LogError(PageErrorPrefix + p.path + ": " + reason);
      case Parsed(t) =>
        if !t.hasTitle {
          LogError(p.path + NoTitle);
        }
        if !t.hasDescription {
          LogWarning(p.path + NoDescription);
        }
        if !t.hasStructuredData {
          LogWarning(p.path + NoStructuredData);
        }
        if !t.hasOpenGraph {
          LogWarning(p.path + NoOpenGraph);
        }
    }

    /** `validate_css_js_files`: the CSS files, then the JS files. */
    method ValidateCssJsFiles(out: Output)
      modifies this
      ensures State() == AssetCheck(old(State()), out)
    {
      LogEmptyFiles(out.cssFiles, "CSS");
      LogEmptyFiles(out.jsFiles, "JS");
    }

    /** One loop of `validate_css_js_files`. */
    method LogEmptyFiles(files: seq<SizedFile>, kind: string)
      modifies this
      ensures State() == EmptyFiles(old(State()), files, kind)
    {
      for i := 0 to |files|
        invariant State() == EmptyFiles(old(State()), files[..i], kind)
      {
        assert files[..i + 1][..i] == files[..i];
        if files[i].size == 0 {
          LogError("Empty " + kind + " file: " + files[i].name);
        }
      }
      assert files[..|files|] == files;
    }

    /** `validate_feeds`. */
    method ValidateFeeds(out: Output)
      modifies this
      ensures State() == FeedsCheck(old(State()), out)
    {
      for i := 0 to |FeedFiles|
        invariant State() == FeedListCheck(old(State()), FeedFiles[..i], out)
      {
        assert FeedFiles[..i + 1][..i] == FeedFiles[..i];
        CheckFeed(FeedFiles[i], out);
      }
      assert FeedFiles[..|FeedFiles|] == FeedFiles;
    }

    /** The body of the loop of `validate_feeds`, for one feed. */
    method CheckFeed(path: string, out: Output)
      modifies this
      ensures State() == FeedCheck(old(State()), path, out)
    {
      if path !in out.existing {
        LogWarning(FeedMissingPrefix + path);
      } else {
        match ReadFeed(path, out)
        case FeedUnreadable(reason) =>
          LogError(FeedErrorPrefix + path + ": " + reason);
        case FeedText(content) =>
          if !(Contains(content, "<feed") || Contains(content, "<rss")) {
            LogError(InvalidFeedPrefix + path);
          }
      }
    }

    /** `validate_live_site`, against the answer to a GET of the base URL. */
    method ValidateLiveSite(home: Fetch)
      modifies this
      ensures State() == LiveCheck(old(State()), home)
    {
      match home
      case ConnectionRefused(_) =>
        LogWarning(NoConnection);
      case RequestFailed(reason) =>
        LogError(LiveErrorPrefix + reason);
      case Answered(status, page) =>
        if status == 200 {
          if !page.hasSiteHeader {
            LogError(NoHeader);
          }
          if !page.hasSiteMain {
            LogError(NoMainArea);
          }
          if !page.hasSiteFooter {
            LogError(NoFooter);
          }
          if !page.hasMobileMenuToggle {
            LogWarning(NoMobileNav);
          }
          if !page.hasThemeToggle {
            LogWarning(NoThemeToggle);
          }
        } else {
          LogError(StatusPrefix + NatToString(status));
        }
    }

    /** `validate_performance`: collects the large files, then looks at base.css. */
    method ValidatePerformance(out: Output)
      modifies this
      ensures State() == PerformanceCheck(old(State()), out)
    {
      var large: seq<nat> := [];
      for i := 0 to |out.fileSizes|
        invariant large == LargeFiles(out.fileSizes[..i])
      {
        assert out.fileSizes[..i + 1][..i] == out.fileSizes[..i];
        if out.fileSizes[i] > MiB {
          large := large + [out.fileSizes[i]];
        }
      }
      assert out.fileSizes[..|out.fileSizes|] == out.fileSizes;
      if large != [] {
        LogWarning("Found " + NatToString(|large|) + LargeFilesSuffix);
      }
      if BaseCss in out.existing && out.baseCssLines > MaxCssLines {
        LogWarning(MinifyMessage);
      }
    }

    /** `validate_accessibility`, against the answer to a GET of the base URL. */
    method ValidateAccessibility(home: Fetch)
      modifies this
      ensures State() == AccessibilityCheck(old(State()), home)
    {
      match home
      case ConnectionRefused(reason) =>
        LogWarning(AccessibilityErrorPrefix + reason);
      case RequestFailed(reason) =>
        LogWarning(AccessibilityErrorPrefix + reason);
      case Answered(status, page) =>
        if status == 200 {
          if page.imagesWithoutAlt > 0 {
            LogWarning("Found " + NatToString(page.imagesWithoutAlt) + NoAltSuffix);
          }
          if !page.hasMainElement {
            LogWarning(NoMainElement);
          }
          if !page.hasNav {
            LogWarning(NoNavElement);
          }
          if !page.hasSkipLink {
            LogWarning(NoSkipLink);
          }
        }
    }

    /** `generate_report`: ready iff no errors; warnings never change the verdict. */
    method GenerateReport() returns (ready: bool, totalIssues: nat)
      ensures ready <==> errors == []
      ensures totalIssues == |errors| + |warnings|
    {
      totalIssues := |errors| + |warnings|;
      ready := |errors| == 0;
    }

    /** `run_all_validations`: the seven checks in order, then the report. */
    method RunAllValidations(out: Output, home: Fetch) returns (ready: bool)
      modifies this
      ensures State() == AllChecks(old(State()), out, home)
      ensures ready <==> errors == []
      ensures old(State()) == EmptyLog ==> (ready <==> SitePasses(out, home))
    {
      ghost var start := State();
      ValidateFileStructure(out);
      ValidateHtmlPages(out);
      ValidateCssJsFiles(out);
      ValidateFeeds(out);
      ValidateLiveSite(home);
      ValidatePerformance(out);
      ValidateAccessibility(home);
      var total;
      ready, total := GenerateReport();
      if start == EmptyLog {
        Verdict(out, home);
      }
    }
  }

  /**
   * `main`: the base URL is the first argument after the program name, if any; the
   * exit status is 0 iff the checks logged no error. `home` answers a GET of a URL.
   */
  method RunValidator(args: seq<string>, out: Output, home: string -> Fetch) returns (code: int)
    ensures var baseUrl := if |args| > 1 then args[1] else DefaultBaseUrl;
            code == (if AllChecks(EmptyLog, out, home(baseUrl)).errors == [] then 0 else 1)
    ensures code == 0 <==> SitePasses(out, home(if |args| > 1 then args[1] else DefaultBaseUrl))
  {
    var baseUrl := if |args| > 1 then args[1] else DefaultBaseUrl;
    var validator := new SiteValidator(baseUrl);
    var success := validator.RunAllValidations(out, home(baseUrl));
    code := if success then 0 else 1;
    Verdict(out, home(baseUrl));
  }
}

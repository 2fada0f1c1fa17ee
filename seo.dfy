/**
 * SEO enrichment (plugins/seo_enhancement/seo_plugin.py): website structured data,
 * per-article BlogPosting records and meta / Open Graph / Twitter attributes.
 * Articles are records of optional attributes: None is an attribute `hasattr` does not find.
 */
module Seo {
  import opened Wrappers
  import opened Text
  import opened Config

  /** Image used when an article names none. */
  const DefaultImage := "/theme/images/og-image.jpg"

  /** Longest meta description, and how many characters survive before the three dots. */
  const MetaLimit := 155
  const MetaKeep := 152

  /** `article.author`: an object with a `name`, or something rendered by str(). */
  datatype Author = Named(name: string) | Plain(text: string)

  function AuthorName(a: Author): string {
    match a
    case Named(n) => n
    case Plain(t) => t
  }

  /** The JSON-LD "BlogPosting" record; "@context" and "@type" are fixed and implied. */
  datatype BlogPosting = BlogPosting(
    headline: string,
    description: string,
    image: string,
    datePublished: string,
    dateModified: string,
    authorName: string,
    publisherName: string,
    url: string,
    mainEntityOfPage: string,   // mainEntityOfPage."@id"
    keywords: Option<seq<string>>)

  /**
   * An article as the generator hands it over, with the attributes this plugin may attach.
   * `summary` is "" when absent; `category` is the category name when it is set;
   * `tags` is [] when absent or empty; timestamps are their ISO strings.
   */
  datatype Article = Article(
    title: string,
    summary: string,
    url: string,
    date: string,
    modified: Option<string>,
    author: Author,
    category: Option<string>,
    tags: seq<string>,
    image: Option<string>,
    content: string,
    structuredData: Option<BlogPosting>,
    metaDescription: Option<string>,
    ogTitle: Option<string>,
    ogDescription: Option<string>,
    ogImage: Option<string>,
    twitterTitle: Option<string>,
    twitterDescription: Option<string>,
    twitterImage: Option<string>)

  /** The website-level "Website" record; "@context"/"@type" are fixed and implied. */
  datatype Website = Website(
    name: string,
    description: string,
    url: string,
    authorName: string,
    authorUrl: string,
    publisherName: string)

  /** `website_data` built from the settings, each missing key read as "". */
  function WebsiteData(s: Settings): (w: Website)
    ensures w.url == w.authorUrl == s.siteUrl.GetOr("")
    ensures w.authorName == w.publisherName == s.author.GetOr("")
    ensures w.name == s.siteName.GetOr("") && w.description == s.siteDescription.GetOr("")
  {
    var url := s.siteUrl.GetOr("");
    var author := s.author.GetOr("");
    Website(s.siteName.GetOr(""), s.siteDescription.GetOr(""), url, author, url, author)
  }

  /** `get_article_image`: the article's own image, else the site default; content is never scanned. */
  function ArticleImage(a: Article): (r: string)
    ensures a.image.Some? ==> r == a.image.value
    ensures a.image.None? ==> r == DefaultImage
  {
    match a.image
    case Some(img) => img
    case None => DefaultImage
  }

  /** The image choice does not depend on the article's content. */
  lemma ArticleImageIgnoresContent(a: Article, content: string)
    ensures ArticleImage(a.(content := content)) == ArticleImage(a)
  {
  }

  /**
   * The `keywords` entry, built the way the source builds it: the category first,
   * then the tags are appended (or become the list when there is no category).
   */
  function Keywords(category: Option<string>, tags: seq<string>): (r: Option<seq<string>>)
    ensures r.None? <==> category.None? && tags == []
    ensures r.Some? ==> r.value == (if category.Some? then [category.value] else []) + tags
  {
    var fromCategory := if category.Some? then Some([category.value]) else None;
    if tags == [] then fromCategory
    else if fromCategory.Some? then Some(fromCategory.value + tags)
    else Some(tags)
  }

  /** Canonical address of an article: `SITEURL + "/" + article.url`. */
  function ArticleUrl(a: Article, s: Settings): string {
    s.siteUrl.GetOr("") + "/" + a.url
  }

  /** `article_data` for one article. */
  function PostingFor(a: Article, s: Settings): (p: BlogPosting)
    ensures p.headline == a.title
    ensures p.description == if a.summary != "" then a.summary else a.title
    ensures p.url == p.mainEntityOfPage == s.siteUrl.GetOr("") + "/" + a.url
    ensures p.image == ArticleImage(a)
    ensures p.dateModified == a.modified.GetOr(a.date) && p.datePublished == a.date
    ensures p.publisherName == s.author.GetOr("") && p.authorName == AuthorName(a.author)
    ensures p.keywords == Keywords(a.category, a.tags)
  {
    BlogPosting(
      a.title,
      if a.summary != "" then a.summary else a.title,
      ArticleImage(a),
      a.date,
      a.modified.GetOr(a.date),
      AuthorName(a.author),
      s.author.GetOr(""),
      ArticleUrl(a, s),
      ArticleUrl(a, s),
      Keywords(a.category, a.tags))
  }

  /**
   * What one pass of `add_article_structured_data` does to one article: an article that
   * already has structured data is skipped, any other gets exactly one record.
   */
  function WithStructuredData(a: Article, s: Settings): (b: Article)
    ensures b.structuredData.Some?
    ensures a.structuredData.Some? ==> b == a
    ensures a.structuredData.None? ==> b.structuredData == Some(PostingFor(a, s))
    ensures b == a.(structuredData := b.structuredData)
  {
    if a.structuredData.Some? then a else a.(structuredData := Some(PostingFor(a, s)))
  }

  /** Running the structured-data pass twice changes nothing the first run did not. */
  lemma StructuredDataIdempotent(a: Article, s: Settings)
    ensures WithStructuredData(WithStructuredData(a, s), s) == WithStructuredData(a, s)
  {
  }

  /** The summary with newlines turned into spaces, then stripped. */
  function CleanSummary(summary: string): (r: string)
    ensures |r| <= |summary|
    ensures forall i :: 0 <= i < |r| ==> r[i] != '\n'
    ensures r == [] || (!IsPySpace(r[0]) && !IsPySpace(r[|r| - 1]))
  {
    var spaced := seq(|summary|, i requires 0 <= i < |summary| => if summary[i] == '\n' then ' ' else summary[i]);
    TrimShape(spaced, Python);
    Trim(spaced, Python)
  }

  /** The meta description derived from a non-empty summary. */
  function MetaDescriptionFor(summary: string): (r: string)
    ensures |r| <= MetaLimit
    ensures |CleanSummary(summary)| > MetaLimit ==>
              |r| == MetaLimit && r == CleanSummary(summary)[..MetaKeep] + "..."
    ensures |CleanSummary(summary)| <= MetaLimit ==> r == CleanSummary(summary)
  {
    Clip(CleanSummary(summary), MetaLimit, MetaKeep)
  }

  /** An attribute written only when it is absent. */
  function SetIfAbsent(current: Option<string>, derived: string): Option<string> {
    if current.Some? then current else Some(derived)
  }

  /**
   * What `enhance_meta_tags` does to one article, stated attribute by attribute: each
   * attribute is derived only when absent; descriptions come from the (possibly just
   * derived) meta description, else the title; images come from `ArticleImage`.
   */
  function EnhancedMeta(a: Article): Article {
    var meta := if a.metaDescription.None? && a.summary != "" then Some(MetaDescriptionFor(a.summary))
                else a.metaDescription;
    var description := meta.GetOr(a.title);
    a.(metaDescription := meta,
       ogTitle := SetIfAbsent(a.ogTitle, a.title),
       ogDescription := SetIfAbsent(a.ogDescription, description),
       ogImage := SetIfAbsent(a.ogImage, ArticleImage(a)),
       twitterTitle := SetIfAbsent(a.twitterTitle, a.title),
       twitterDescription := SetIfAbsent(a.twitterDescription, description),
       twitterImage := SetIfAbsent(a.twitterImage, ArticleImage(a)))
  }

  /** An attribute the article already has is never overwritten, and nothing else changes. */
  lemma EnhancedMetaNeverOverwrites(a: Article)
    ensures a.metaDescription.Some? ==> EnhancedMeta(a).metaDescription == a.metaDescription
    ensures a.ogTitle.Some? ==> EnhancedMeta(a).ogTitle == a.ogTitle
    ensures a.ogDescription.Some? ==> EnhancedMeta(a).ogDescription == a.ogDescription
    ensures a.ogImage.Some? ==> EnhancedMeta(a).ogImage == a.ogImage
    ensures a.twitterTitle.Some? ==> EnhancedMeta(a).twitterTitle == a.twitterTitle
    ensures a.twitterDescription.Some? ==> EnhancedMeta(a).twitterDescription == a.twitterDescription
    ensures a.twitterImage.Some? ==> EnhancedMeta(a).twitterImage == a.twitterImage
    ensures EnhancedMeta(a).(metaDescription := a.metaDescription, ogTitle := a.ogTitle,
              ogDescription := a.ogDescription, ogImage := a.ogImage, twitterTitle := a.twitterTitle,
              twitterDescription := a.twitterDescription, twitterImage := a.twitterImage) == a
  {
  }

  /**
   * The values filled in: a meta description only from a non-empty summary, titles from the
   * title, descriptions from the meta description when present else the title, images
   * from `ArticleImage`; every Open Graph and Twitter attribute is present afterwards.
   */
  lemma EnhancedMetaFills(a: Article)
    ensures var b := EnhancedMeta(a);
      && (a.metaDescription.None? && a.summary == "" ==> b.metaDescription.None?)
      && (a.metaDescription.None? && a.summary != "" ==> b.metaDescription == Some(MetaDescriptionFor(a.summary)))
      && (a.ogTitle.None? ==> b.ogTitle == Some(a.title))
      && (a.twitterTitle.None? ==> b.twitterTitle == Some(a.title))
      && (a.ogDescription.None? ==> b.ogDescription == Some(b.metaDescription.GetOr(a.title)))
      && (a.twitterDescription.None? ==> b.twitterDescription == Some(b.metaDescription.GetOr(a.title)))
      && (a.ogImage.None? ==> b.ogImage == Some(ArticleImage(a)))
      && (a.twitterImage.None? ==> b.twitterImage == Some(ArticleImage(a)))
      && b.ogTitle.Some? && b.ogDescription.Some? && b.ogImage.Some?
      && b.twitterTitle.Some? && b.twitterDescription.Some? && b.twitterImage.Some?
  {
  }

  /** Running `enhance_meta_tags` a second time changes no attribute. */
  lemma EnhancedMetaIdempotent(a: Article)
    ensures EnhancedMeta(EnhancedMeta(a)) == EnhancedMeta(a)
  {
  }

  /** The loop body of `enhance_meta_tags` for one article, one attribute test at a time. */
  method EnhanceArticle(a: Article) returns (article: Article)
    ensures article == EnhancedMeta(a)
  {
    ghost var spec := EnhancedMeta(a);
    article := a;
    if article.metaDescription.None? {
      var description := article.summary;
      if description != "" {
        article := article.(metaDescription := Some(MetaDescriptionFor(description)));
      }
    }
    assert article == a.(metaDescription := spec.metaDescription);
    if article.ogTitle.None? {
      article := article.(ogTitle := Some(article.title));
    }
    assert article == a.(metaDescription := spec.metaDescription, ogTitle := spec.ogTitle);
    if article.ogDescription.None? {
      article := article.(ogDescription := Some(article.metaDescription.GetOr(article.title)));
    }
    assert article == a.(metaDescription := spec.metaDescription, ogTitle := spec.ogTitle,
                         ogDescription := spec.ogDescription);
    if article.ogImage.None? {
      article := article.(ogImage := Some(ArticleImage(article)));
    }
    assert article == a.(metaDescription := spec.metaDescription, ogTitle := spec.ogTitle,
                         ogDescription := spec.ogDescription, ogImage := spec.ogImage);
    if article.twitterTitle.None? {
      article := article.(twitterTitle := Some(article.title));
    }
    assert article == spec.(twitterDescription := a.twitterDescription, twitterImage := a.twitterImage);
    if article.twitterDescription.None? {
      article := article.(twitterDescription := Some(article.metaDescription.GetOr(article.title)));
    }
    assert article == spec.(twitterImage := a.twitterImage);
    if article.twitterImage.None? {
      article := article.(twitterImage := Some(ArticleImage(article)));
    }
  }

  /** The article generator's list of articles, whose elements the two passes update in place. */
  class ArticleGenerator {
    const settings: Settings
    var articles: seq<Article>

    constructor (settings: Settings, articles: seq<Article>)
      ensures this.settings == settings && this.articles == articles
    {
      this.settings := settings;
      this.articles := articles;
    }

    /** `add_article_structured_data` (seo_plugin.py:42-83). */
    method AddArticleStructuredData()
      modifies this
      ensures |articles| == |old(articles)|
      ensures forall i :: 0 <= i < |articles| ==> articles[i] == WithStructuredData(old(articles)[i], settings)
    {
      var i := 0;
      while i < |articles|
        invariant 0 <= i <= |articles| == |old(articles)|
        invariant forall k :: 0 <= k < i ==> articles[k] == WithStructuredData(old(articles)[k], settings)
        invariant forall k :: i <= k < |articles| ==> articles[k] == old(articles)[k]
      {
        var article := articles[i];
        if article.structuredData.None? {
          article := article.(structuredData := Some(PostingFor(article, settings)));
          articles := articles[i := article];
        }
        i := i + 1;
      }
    }

    /** `enhance_meta_tags` (seo_plugin.py:114-145). */
    method EnhanceMetaTags()
      modifies this
      ensures |articles| == |old(articles)|
      ensures forall i :: 0 <= i < |articles| ==> articles[i] == EnhancedMeta(old(articles)[i])
    {
      var i := 0;
      while i < |articles|
        invariant 0 <= i <= |articles| == |old(articles)|
        invariant forall k :: 0 <= k < i ==> articles[k] == EnhancedMeta(old(articles)[k])
        invariant forall k :: i <= k < |articles| ==> articles[k] == old(articles)[k]
      {
        var article := EnhanceArticle(articles[i]);
        articles := articles[i := article];
        i := i + 1;
      }
    }
  }
}

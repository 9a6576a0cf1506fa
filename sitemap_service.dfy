/**
 * The in-app `SitemapService` (`src/app/services/sitemap.service.ts`):
 * static, project and article URL records without images, concatenated
 * in that order and serialised under the plain sitemap 0.9 head. The
 * service's priorities are fixed texts, not scores.
 */
module SitemapService {
  import opened Wrappers
  import opened Text
  import opened Content
  import opened SitemapXml

  const BaseUrl := "https://azotodev.web.app"

  /** `getStaticUrls`: four records dated today, all weekly; the root at 1.0, the others at 0.9. */
  function StaticUrls(today: string): (rs: seq<UrlRecord>)
    ensures |rs| == 4
    ensures forall i :: 0 <= i < 4 ==> rs[i].lastmod == today && rs[i].changefreq == "weekly" && rs[i].images == []
    ensures rs[0].priority == "1.0" && forall i :: 1 <= i < 4 ==> rs[i].priority == "0.9"
  {
    [ UrlRecord(BaseUrl, today, "weekly", "1.0", []),
      UrlRecord(BaseUrl + "/home", today, "weekly", "0.9", []),
      UrlRecord(BaseUrl + "/projects", today, "weekly", "0.9", []),
      UrlRecord(BaseUrl + "/articles", today, "weekly", "0.9", []) ]
  }

  function FeaturedPriority(featured: bool): string
  {
    if featured then "0.8" else "0.7"
  }

  /** A project's record: its page, the date part of `lastUpdated || date`, monthly. */
  function ProjectRecord(p: Project): UrlRecord
  {
    UrlRecord(BaseUrl + "/projects/" + p.id, DatePart(OrElse(p.lastUpdated, p.date)), "monthly",
              FeaturedPriority(p.featured), [])
  }

  /** An article's record: its page, the date part of `date` alone, monthly. */
  function ArticleRecord(a: Article): UrlRecord
  {
    UrlRecord(BaseUrl + "/articles/" + a.slug, DatePart(a.date), "monthly", FeaturedPriority(a.featured), [])
  }

  function ProjectUrls(projects: seq<Project>): (rs: seq<UrlRecord>)
    ensures |rs| == |projects|
    ensures forall i :: 0 <= i < |projects| ==> rs[i] == ProjectRecord(projects[i])
  {
    seq(|projects|, i requires 0 <= i < |projects| => ProjectRecord(projects[i]))
  }

  function ArticleUrls(articles: seq<Article>): (rs: seq<UrlRecord>)
    ensures |rs| == |articles|
    ensures forall i :: 0 <= i < |articles| ==> rs[i] == ArticleRecord(articles[i])
  {
    seq(|articles|, i requires 0 <= i < |articles| => ArticleRecord(articles[i]))
  }

  /** The records of `generateDynamicSitemap`: static, then projects, then articles. */
  function AllUrls(projects: seq<Project>, articles: seq<Article>, today: string): seq<UrlRecord>
  {
    StaticUrls(today) + ProjectUrls(projects) + ArticleUrls(articles)
  }

  /** `buildXmlSitemap`. */
  function BuildXmlSitemap(urls: seq<UrlRecord>): string
  {
    Document(PlainSitemapHead, urls)
  }

  /** `buildXmlSitemap` is undone by the decoder: well-formed records come back unchanged and in order. */
  lemma BuildXmlSitemapRoundTrip(urls: seq<UrlRecord>)
    requires forall i :: 0 <= i < |urls| ==> WellFormed(urls[i])
    ensures Decode(PlainSitemapHead, BuildXmlSitemap(urls)) == Some(urls)
  {
    DocumentRoundTrip(PlainSitemapHead, urls);
  }

  function DynamicSitemap(projects: seq<Project>, articles: seq<Article>, today: string): string
  {
    BuildXmlSitemap(AllUrls(projects, articles, today))
  }

  /** The record order: four static records, then one per project, then one per article. */
  lemma AllUrlsLayout(projects: seq<Project>, articles: seq<Article>, today: string)
    ensures var rs := AllUrls(projects, articles, today);
      && |rs| == 4 + |projects| + |articles|
      && rs[..4] == StaticUrls(today)
      && (forall i :: 0 <= i < |projects| ==> rs[4 + i] == ProjectRecord(projects[i]))
      && (forall j :: 0 <= j < |articles| ==> rs[4 + |projects| + j] == ArticleRecord(articles[j]))
  {
    var st := StaticUrls(today);
    var ps := ProjectUrls(projects);
    var as_ := ArticleUrls(articles);
    var rs := AllUrls(projects, articles, today);
    assert rs[..4] == st;
    assert forall i :: 0 <= i < |projects| ==> rs[4 + i] == ps[i];
    assert forall j :: 0 <= j < |articles| ==> rs[4 + |projects| + j] == as_[j];
  }

  /** A project's `lastmod` follows `lastUpdated` when it is set and non-empty, and `date` otherwise. */
  lemma ProjectLastmod(p: Project)
    ensures Truthy(p.lastUpdated) ==> ProjectRecord(p).lastmod == DatePart(p.lastUpdated.value)
    ensures !Truthy(p.lastUpdated) ==> ProjectRecord(p).lastmod == DatePart(p.date)
    ensures ProjectRecord(p).priority == (if p.featured then "0.8" else "0.7")
  {
  }

  /** An article's record does not depend on `lastUpdated`. */
  lemma ArticleIgnoresLastUpdated(a: Article, u: Option<string>)
    ensures ArticleRecord(a.(lastUpdated := u)) == ArticleRecord(a)
  {
  }

  predicate KnownPriority(s: string)
  {
    s == "1.0" || s == "0.9" || s == "0.8" || s == "0.7"
  }

  /** Every emitted priority is one of 1.0, 0.9, 0.8 and 0.7, and the root alone gets 1.0. */
  lemma PrioritiesKnown(projects: seq<Project>, articles: seq<Article>, today: string)
    ensures forall k :: 0 <= k < |AllUrls(projects, articles, today)| ==>
              KnownPriority(AllUrls(projects, articles, today)[k].priority)
    ensures forall k :: 1 <= k < |AllUrls(projects, articles, today)| ==>
              AllUrls(projects, articles, today)[k].priority != "1.0"
  {
    var rs := AllUrls(projects, articles, today);
    AllUrlsLayout(projects, articles, today);
    forall k | 0 <= k < |rs| ensures KnownPriority(rs[k].priority) && (k >= 1 ==> rs[k].priority != "1.0") {
      if k < 4 {
        assert rs[k] == rs[..4][k];
      } else if k < 4 + |projects| {
        assert rs[4 + (k - 4)] == ProjectRecord(projects[k - 4]);
      } else {
        assert rs[4 + |projects| + (k - 4 - |projects|)] == ArticleRecord(articles[k - 4 - |projects|]);
      }
    }
  }

  /** Inputs whose text holds no `<`: the service escapes nothing, so only these read back unchanged. */
  predicate PlainProject(p: Project)
  {
    NoAngle(p.id) && NoAngle(p.date) && (p.lastUpdated.Some? ==> NoAngle(p.lastUpdated.value))
  }

  predicate PlainArticle(a: Article)
  {
    NoAngle(a.slug) && NoAngle(a.date)
  }

  lemma ConstantsNoAngle()
    ensures NoAngle(BaseUrl) && NoAngle("/home") && NoAngle("/projects") && NoAngle("/articles")
    ensures NoAngle("/projects/") && NoAngle("/articles/") && NoAngle("weekly") && NoAngle("monthly")
    ensures NoAngle("1.0") && NoAngle("0.9") && NoAngle("0.8") && NoAngle("0.7")
  {
    assert forall k :: 0 <= k < |BaseUrl| ==> BaseUrl[k] != '<';
  }

  lemma ProjectRecordWellFormed(p: Project)
    requires PlainProject(p)
    ensures WellFormed(ProjectRecord(p))
  {
    ConstantsNoAngle();
    NoAngleAppend(BaseUrl, "/projects/");
    NoAngleAppend(BaseUrl + "/projects/", p.id);
    DatePartNoAngle(OrElse(p.lastUpdated, p.date));
  }

  lemma ArticleRecordWellFormed(a: Article)
    requires PlainArticle(a)
    ensures WellFormed(ArticleRecord(a))
  {
    ConstantsNoAngle();
    NoAngleAppend(BaseUrl, "/articles/");
    NoAngleAppend(BaseUrl + "/articles/", a.slug);
    DatePartNoAngle(a.date);
  }

  lemma StaticUrlsWellFormed(today: string)
    requires NoAngle(today)
    ensures forall i :: 0 <= i < 4 ==> WellFormed(StaticUrls(today)[i])
  {
    ConstantsNoAngle();
    NoAngleAppend(BaseUrl, "/home");
    NoAngleAppend(BaseUrl, "/projects");
    NoAngleAppend(BaseUrl, "/articles");
  }

  /**
   * Reading the service's document back under the plain head gives exactly
   * one record per static page, project and article, in that order.
   */
  lemma DynamicSitemapRoundTrip(projects: seq<Project>, articles: seq<Article>, today: string)
    requires NoAngle(today)
    requires forall i :: 0 <= i < |projects| ==> PlainProject(projects[i])
    requires forall j :: 0 <= j < |articles| ==> PlainArticle(articles[j])
    ensures Decode(PlainSitemapHead, DynamicSitemap(projects, articles, today)) == Some(AllUrls(projects, articles, today))
  {
    var rs := AllUrls(projects, articles, today);
    AllUrlsLayout(projects, articles, today);
    StaticUrlsWellFormed(today);
    forall k | 0 <= k < |rs| ensures WellFormed(rs[k]) {
      if k < 4 {
        assert rs[k] == rs[..4][k];
      } else if k < 4 + |projects| {
        assert rs[4 + (k - 4)] == ProjectRecord(projects[k - 4]);
        ProjectRecordWellFormed(projects[k - 4]);
      } else {
        assert rs[4 + |projects| + (k - 4 - |projects|)] == ArticleRecord(articles[k - 4 - |projects|]);
        ArticleRecordWellFormed(articles[k - 4 - |projects|]);
      }
    }
    BuildXmlSitemapRoundTrip(rs);
  }
}

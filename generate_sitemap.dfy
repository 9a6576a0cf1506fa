/**
 * The build-time sitemap generator (`scripts/generate-sitemap.js`): the
 * additive priority scores, the newest-date resolver, the per-item URL
 * records, their order, and the XML document written to disk.
 *
 * Priorities are integer hundredths (0.7 is 70); `toFixed(1)` becomes
 * `PriorityText`, a round-half-up to tenths. "Today" is a parameter.
 */
module GenerateSitemap {
  import opened Wrappers
  import opened Text
  import opened Content
  import opened SitemapXml

  const BaseUrl := "https://azotodev.web.app"
  const ProjectImagesDir := "/assets/images/projects/"
  const ArticleImagesDir := "/assets/images/articles/"

  // ---------------------------------------------------------------------
  // Priorities

  predicate Completed(p: Project)
  {
    p.status == Some("completed")
  }

  predicate UsesAngular(p: Project)
  {
    p.technologies.Some? && "Angular" in p.technologies.value
  }

  predicate IsTutorial(a: Article)
  {
    a.category == Some("tutorial")
  }

  predicate TaggedAngular(a: Article)
  {
    a.tags.Some? && "angular" in a.tags.value
  }

  /** `article.readTime && article.readTime < 10`: a non-zero reading time under ten minutes. */
  predicate QuickRead(a: Article)
  {
    a.readTime.Some? && a.readTime.value != 0 && a.readTime.value < 10
  }

  function Bonus(flag: bool, amount: int): int
  {
    if flag then amount else 0
  }

  /** A project's priority in hundredths: 70, plus 20/10/5 for featured/completed/Angular, at most 90. */
  function ProjectPriority(p: Project): (h: int)
    ensures 70 <= h <= 90
  {
    var sum := 70 + Bonus(p.featured, 20) + Bonus(Completed(p), 10) + Bonus(UsesAngular(p), 5);
    if sum < 90 then sum else 90
  }

  /** An article's priority in hundredths: 60, plus 15/10/5/5 for featured/tutorial/angular/quick, at most 80. */
  function ArticlePriority(a: Article): (h: int)
    ensures 60 <= h <= 80
  {
    var sum := 60 + Bonus(a.featured, 15) + Bonus(IsTutorial(a), 10) + Bonus(TaggedAngular(a), 5)
               + Bonus(QuickRead(a), 5);
    if sum < 80 then sum else 80
  }

  /** `calculateProjectPriority`: the step-by-step accumulation, capped at the end. */
  method CalculateProjectPriority(p: Project) returns (priority: int)
    ensures priority == ProjectPriority(p)
    ensures 70 <= priority <= 90
  {
    priority := 70;
    if p.featured {
      priority := priority + 20;
    }
    if p.status == Some("completed") {
      priority := priority + 10;
    }
    if p.technologies.Some? && "Angular" in p.technologies.value {
      priority := priority + 5;
    }
    if priority > 90 {
      priority := 90;
    }
  }

  /** `calculateArticlePriority`: the step-by-step accumulation, capped at the end. */
  method CalculateArticlePriority(a: Article) returns (priority: int)
    ensures priority == ArticlePriority(a)
    ensures 60 <= priority <= 80
  {
    priority := 60;
    if a.featured {
      priority := priority + 15;
    }
    if a.category == Some("tutorial") {
      priority := priority + 10;
    }
    if a.tags.Some? && "angular" in a.tags.value {
      priority := priority + 5;
    }
    if a.readTime.Some? && a.readTime.value != 0 && a.readTime.value < 10 {
      priority := priority + 5;
    }
    if priority > 80 {
      priority := 80;
    }
  }

  /** Every scoring flag of `p` is also set on `q`. */
  predicate ProjectFlagsAtMost(p: Project, q: Project)
  {
    && (p.featured ==> q.featured)
    && (Completed(p) ==> Completed(q))
    && (UsesAngular(p) ==> UsesAngular(q))
  }

  predicate ArticleFlagsAtMost(a: Article, b: Article)
  {
    && (a.featured ==> b.featured)
    && (IsTutorial(a) ==> IsTutorial(b))
    && (TaggedAngular(a) ==> TaggedAngular(b))
    && (QuickRead(a) ==> QuickRead(b))
  }

  /** Setting a flag never lowers a project's priority. */
  lemma ProjectPriorityMonotone(p: Project, q: Project)
    requires ProjectFlagsAtMost(p, q)
    ensures ProjectPriority(p) <= ProjectPriority(q)
  {
  }

  /** Setting a flag never lowers an article's priority. */
  lemma ArticlePriorityMonotone(a: Article, b: Article)
    requires ArticleFlagsAtMost(a, b)
    ensures ArticlePriority(a) <= ArticlePriority(b)
  {
  }

  /** The value in tenths of a text `d.d`. */
  function TextTenths(s: string): int
    requires |s| == 3
  {
    (s[0] as int - '0' as int) * 10 + (s[2] as int - '0' as int)
  }

  function Digit(d: int): char
    requires 0 <= d <= 9
  {
    ('0' as int + d) as char
  }

  /**
   * `toFixed(1)` of a priority in hundredths: one digit, a point, one digit,
   * naming the tenth nearest to `h` (halves round up).
   */
  function PriorityText(h: int): (s: string)
    requires 0 <= h <= 100
    ensures |s| == 3 && s[1] == '.' && '0' <= s[0] <= '9' && '0' <= s[2] <= '9'
    ensures 10 * TextTenths(s) - 5 <= h < 10 * TextTenths(s) + 5
  {
    var t := (h + 5) / 10;
    [Digit(t / 10), '.', Digit(t % 10)]
  }

  /** A higher priority never prints as a lower one. */
  lemma PriorityTextMonotone(h1: int, h2: int)
    requires 0 <= h1 <= h2 <= 100
    ensures TextTenths(PriorityText(h1)) <= TextTenths(PriorityText(h2))
  {
  }

  // ---------------------------------------------------------------------
  // Latest update

  /** `item.lastUpdated || item.date`. */
  function EffectiveDate(lastUpdated: Option<string>, date: string): string
  {
    OrElse(lastUpdated, date)
  }

  /** The newest of a non-empty list of ISO dates: the first entry after the descending sort. */
  function Latest(dates: seq<string>): (m: string)
    requires |dates| > 0
    ensures m in dates
    ensures forall i :: 0 <= i < |dates| ==> LexLe(dates[i], m)
  {
    if |dates| == 1 then
      LexLeReflexive(dates[0]);
      dates[0]
    else
      var rest := Latest(dates[1..]);
      LexLeTotal(dates[0], rest);
      LexLeReflexive(dates[0]);
      if LexLe(dates[0], rest) then
        rest
      else
        assert forall i :: 1 <= i < |dates| ==> LexLe(dates[i], rest) by {
          forall i | 1 <= i < |dates| ensures LexLe(dates[i], rest) {
            assert dates[i] == dates[1..][i - 1];
          }
        }
        assert forall i :: 1 <= i < |dates| ==> LexLe(dates[i], dates[0]) by {
          forall i | 1 <= i < |dates| ensures LexLe(dates[i], dates[0]) {
            LexLeTransitive(dates[i], rest, dates[0]);
          }
        }
        dates[0]
  }

  /**
   * `getLastProjectUpdate`/`getLastArticleUpdate` on the effective dates:
   * today for an empty collection or an empty newest date, otherwise the
   * date part of the newest date.
   */
  function LastUpdate(dates: seq<string>, today: string): (r: string)
    ensures dates == [] ==> r == today
    ensures dates != [] ==> exists i :: 0 <= i < |dates| && forall j :: 0 <= j < |dates| ==> LexLe(dates[j], dates[i])
    ensures r == today || exists i :: 0 <= i < |dates| && r == DatePart(dates[i])
                                       && forall j :: 0 <= j < |dates| ==> LexLe(dates[j], dates[i])
    ensures (exists i :: 0 <= i < |dates| && dates[i] != "") ==>
              exists i :: 0 <= i < |dates| && r == DatePart(dates[i])
                          && forall j :: 0 <= j < |dates| ==> LexLe(dates[j], dates[i])
    ensures (forall i :: 0 <= i < |dates| ==> dates[i] == "") ==> r == today
  {
    if dates == [] then today
    else
      var m := Latest(dates);
      if m != "" then DatePart(m)
      else
        assert forall i :: 0 <= i < |dates| ==> dates[i] == "" by {
          forall i | 0 <= i < |dates| ensures dates[i] == "" {
            assert LexLe(dates[i], m);
          }
        }
        today
  }

  function ProjectDates(projects: seq<Project>): (ds: seq<string>)
    ensures |ds| == |projects|
    ensures forall i :: 0 <= i < |projects| ==> ds[i] == EffectiveDate(projects[i].lastUpdated, projects[i].date)
  {
    seq(|projects|, i requires 0 <= i < |projects| => EffectiveDate(projects[i].lastUpdated, projects[i].date))
  }

  function ArticleDates(articles: seq<Article>): (ds: seq<string>)
    ensures |ds| == |articles|
    ensures forall i :: 0 <= i < |articles| ==> ds[i] == EffectiveDate(articles[i].lastUpdated, articles[i].date)
  {
    seq(|articles|, i requires 0 <= i < |articles| => EffectiveDate(articles[i].lastUpdated, articles[i].date))
  }

  function LastProjectUpdate(projects: seq<Project>, today: string): string
  {
    LastUpdate(ProjectDates(projects), today)
  }

  function LastArticleUpdate(articles: seq<Article>, today: string): string
  {
    LastUpdate(ArticleDates(articles), today)
  }

  /** A collection's `lastmod` is the date part of a newest effective date, or today. */
  lemma LastProjectUpdateIsNewest(projects: seq<Project>, today: string)
    ensures projects == [] ==> LastProjectUpdate(projects, today) == today
    ensures (forall i :: 0 <= i < |projects| ==> EffectiveDate(projects[i].lastUpdated, projects[i].date) == "") ==>
              LastProjectUpdate(projects, today) == today
    ensures (exists i :: 0 <= i < |projects| && EffectiveDate(projects[i].lastUpdated, projects[i].date) != "") ==>
              exists i :: 0 <= i < |projects|
                && LastProjectUpdate(projects, today) == DatePart(EffectiveDate(projects[i].lastUpdated, projects[i].date))
                && forall j :: 0 <= j < |projects| ==>
                     LexLe(EffectiveDate(projects[j].lastUpdated, projects[j].date),
                           EffectiveDate(projects[i].lastUpdated, projects[i].date))
  {
    var ds := ProjectDates(projects);
    if forall i :: 0 <= i < |projects| ==> EffectiveDate(projects[i].lastUpdated, projects[i].date) == "" {
      assert forall i :: 0 <= i < |ds| ==> ds[i] == "";
    }
    if exists i :: 0 <= i < |projects| && EffectiveDate(projects[i].lastUpdated, projects[i].date) != "" {
      var k :| 0 <= k < |projects| && EffectiveDate(projects[k].lastUpdated, projects[k].date) != "";
      assert ds[k] != "";
      var i :| 0 <= i < |ds| && LastUpdate(ds, today) == DatePart(ds[i])
               && forall j :: 0 <= j < |ds| ==> LexLe(ds[j], ds[i]);
      assert forall j :: 0 <= j < |projects| ==>
               LexLe(EffectiveDate(projects[j].lastUpdated, projects[j].date),
                     EffectiveDate(projects[i].lastUpdated, projects[i].date)) by {
        forall j | 0 <= j < |projects|
          ensures LexLe(EffectiveDate(projects[j].lastUpdated, projects[j].date),
                        EffectiveDate(projects[i].lastUpdated, projects[i].date))
        {
          assert LexLe(ds[j], ds[i]);
        }
      }
    }
  }

  // ---------------------------------------------------------------------
  // URL records

  function ProjectLoc(p: Project): string
  {
    BaseUrl + "/projects/" + p.id
  }

  function ArticleLoc(a: Article): string
  {
    BaseUrl + "/articles/" + a.slug
  }

  function ProjectImageUrl(id: string, image: string): string
  {
    BaseUrl + ProjectImagesDir + id + "/" + image
  }

  function ArticleImageUrl(image: string): string
  {
    BaseUrl + ArticleImagesDir + image
  }

  /** One image URL per entry of `images`, in order; none when the field is absent. */
  function ProjectImages(p: Project): (urls: seq<string>)
    ensures p.images.None? ==> urls == []
    ensures p.images.Some? ==> |urls| == |p.images.value|
    ensures p.images.Some? ==> forall i :: 0 <= i < |urls| ==> urls[i] == ProjectImageUrl(p.id, p.images.value[i])
  {
    match p.images
    case None => []
    case Some(images) => seq(|images|, i requires 0 <= i < |images| => ProjectImageUrl(p.id, images[i]))
  }

  function ProjectRecord(p: Project): UrlRecord
  {
    UrlRecord(
      ProjectLoc(p),
      DatePart(EffectiveDate(p.lastUpdated, p.date)),
      if p.featured then "weekly" else "quarterly",
      PriorityText(ProjectPriority(p)),
      ProjectImages(p))
  }

  function ArticleRecord(a: Article): UrlRecord
  {
    UrlRecord(
      ArticleLoc(a),
      DatePart(EffectiveDate(a.lastUpdated, a.date)),
      if a.featured then "weekly" else "monthly",
      PriorityText(ArticlePriority(a)),
      if Truthy(a.image) then [ArticleImageUrl(a.image.value)] else [])
  }

  /** The fields of a project's record, as the build script derives them. */
  lemma ProjectRecordFields(p: Project)
    ensures ProjectRecord(p).loc == BaseUrl + "/projects/" + p.id
    ensures ProjectRecord(p).changefreq == (if p.featured then "weekly" else "quarterly")
    ensures ProjectRecord(p).lastmod == DatePart(EffectiveDate(p.lastUpdated, p.date))
    ensures ProjectRecord(p).priority == PriorityText(ProjectPriority(p))
    ensures 'T' !in ProjectRecord(p).lastmod && ProjectRecord(p).lastmod <= EffectiveDate(p.lastUpdated, p.date)
    ensures |ProjectRecord(p).images| == (if p.images.Some? then |p.images.value| else 0)
    ensures forall i :: 0 <= i < |ProjectRecord(p).images| ==>
              ProjectRecord(p).images[i] == BaseUrl + "/assets/images/projects/" + p.id + "/" + p.images.value[i]
  {
    DatePartIsLongestPrefix(EffectiveDate(p.lastUpdated, p.date));
  }

  /** The fields of an article's record: exactly one image when `image` is set, none otherwise. */
  lemma ArticleRecordFields(a: Article)
    ensures ArticleRecord(a).loc == BaseUrl + "/articles/" + a.slug
    ensures ArticleRecord(a).changefreq == (if a.featured then "weekly" else "monthly")
    ensures ArticleRecord(a).lastmod == DatePart(EffectiveDate(a.lastUpdated, a.date))
    ensures ArticleRecord(a).priority == PriorityText(ArticlePriority(a))
    ensures 'T' !in ArticleRecord(a).lastmod && ArticleRecord(a).lastmod <= EffectiveDate(a.lastUpdated, a.date)
    ensures |ArticleRecord(a).images| == (if Truthy(a.image) then 1 else 0)
    ensures Truthy(a.image) ==> ArticleRecord(a).images[0] == BaseUrl + "/assets/images/articles/" + a.image.value
  {
    DatePartIsLongestPrefix(EffectiveDate(a.lastUpdated, a.date));
  }

  /** A record's image caption names the project id when the id holds no slash. */
  lemma ProjectCaptionIsId(p: Project)
    requires '/' !in p.id
    ensures LastSegment(ProjectRecord(p).loc) == p.id
  {
    assert ProjectLoc(p) == BaseUrl + "/projects" + "/" + p.id;
    LastSegmentAfterSlash(BaseUrl + "/projects", p.id);
  }

  // ---------------------------------------------------------------------
  // Static records

  /** `projects[0].images?.[0] || "preview.webp"`. */
  function CoverImage(p: Project): string
  {
    OrElse(if p.images.Some? && |p.images.value| > 0 then Some(p.images.value[0]) else None, "preview.webp")
  }

  /** `${value}` in a template string: a missing value prints as `undefined`. */
  function TemplateText(o: Option<string>): string
  {
    match o
    case None => "undefined"
    case Some(s) => s
  }

  function Take<T>(xs: seq<T>, n: nat): (ys: seq<T>)
    ensures |ys| == if |xs| < n then |xs| else n
    ensures ys <= xs
  {
    if |xs| < n then xs else xs[..n]
  }

  /** The `/articles` record's images as written: the first two articles, `undefined` when one has no image. */
  function ArticleListImagesAsWritten(articles: seq<Article>): (urls: seq<string>)
    ensures |urls| == |Take(articles, 2)|
    ensures forall i :: 0 <= i < |urls| ==> urls[i] == ArticleImageUrl(TemplateText(articles[i].image))
  {
    var first := Take(articles, 2);
    seq(|first|, i requires 0 <= i < |first| => ArticleImageUrl(TemplateText(first[i].image)))
  }

  /** An article without an image puts the URL `.../articles/undefined` into the sitemap. */
  lemma ArticleListImagesAsWrittenListsUndefined(a: Article)
    requires a.image.None?
    ensures ArticleListImagesAsWritten([a]) == [ArticleImageUrl("undefined")]
  {
  }

  /** How many of `articles` have a truthy `image`. */
  function ImageCount(articles: seq<Article>): (n: nat)
    ensures n <= |articles|
  {
    if articles == [] then 0
    else ImageCount(articles[..|articles| - 1]) + (if Truthy(articles[|articles| - 1].image) then 1 else 0)
  }

  /**
   * The `/articles` record's images, keeping only those of the first two
   * articles that do have an image: every such image is listed, nothing
   * else is, and in article order.
   */
  function ArticleListImages(articles: seq<Article>): (urls: seq<string>)
    ensures |urls| == ImageCount(Take(articles, 2))
  {
    var first := Take(articles, 2);
    assert first[..0] == [];
    if |first| == 0 then []
    else
      assert first[..1][..0] == [];
      var head := if Truthy(first[0].image) then [ArticleImageUrl(first[0].image.value)] else [];
      var tail := if |first| == 2 && Truthy(first[1].image) then [ArticleImageUrl(first[1].image.value)] else [];
      assert |first| == 2 ==> first[..2][..1] == first[..1];
      head + tail
  }

  /**
   * The guarded list holds exactly the images of those of the first two
   * articles that have one, in article order: it equals the list as
   * written whenever every one of them has an image.
   */
  lemma ArticleListImagesExact(articles: seq<Article>)
    ensures forall i :: 0 <= i < |ArticleListImages(articles)| ==>
              exists k :: 0 <= k < |Take(articles, 2)| && Truthy(articles[k].image)
                          && ArticleListImages(articles)[i] == ArticleImageUrl(articles[k].image.value)
    ensures forall k :: 0 <= k < |Take(articles, 2)| && Truthy(articles[k].image) ==>
              ArticleImageUrl(articles[k].image.value) in ArticleListImages(articles)
    ensures (forall k :: 0 <= k < |Take(articles, 2)| ==> Truthy(articles[k].image)) ==>
              ArticleListImages(articles) == ArticleListImagesAsWritten(articles)
  {
    var first := Take(articles, 2);
    var urls := ArticleListImages(articles);
    if |first| == 2 {
      assert forall k :: 0 <= k < 2 ==> first[k] == articles[k];
    } else if |first| == 1 {
      assert first[0] == articles[0];
    }
  }

  /**
   * With the guard, the URL `.../articles/undefined` is listed only when an
   * article's image file really is called `undefined`, and each of the
   * first two articles without an image shortens the list by one.
   */
  lemma ArticleListImagesSkipsMissing(articles: seq<Article>, k: nat)
    requires k < |Take(articles, 2)| && !Truthy(articles[k].image)
    ensures |ArticleListImages(articles)| < |ArticleListImagesAsWritten(articles)|
    ensures ArticleListImagesAsWritten(articles)[k] == ArticleImageUrl(TemplateText(articles[k].image))
    ensures ArticleImageUrl("undefined") in ArticleListImages(articles) ==>
              exists j :: 0 <= j < |Take(articles, 2)| && articles[j].image == Some("undefined")
  {
    var first := Take(articles, 2);
    ImageCountBelow(first, k);
    var urls := ArticleListImages(articles);
    ArticleListImagesExact(articles);
    if ArticleImageUrl("undefined") in urls {
      var i :| 0 <= i < |urls| && urls[i] == ArticleImageUrl("undefined");
      var j :| 0 <= j < |first| && Truthy(articles[j].image) && urls[i] == ArticleImageUrl(articles[j].image.value);
      ArticleImageUrlInjective(articles[j].image.value, "undefined");
    }
  }

  /** A list with an imageless article counts fewer images than articles. */
  lemma {:induction false} ImageCountBelow(articles: seq<Article>, k: nat)
    requires k < |articles| && !Truthy(articles[k].image)
    ensures ImageCount(articles) < |articles|
  {
    var n := |articles| - 1;
    if k < n {
      assert articles[..n][k] == articles[k];
      ImageCountBelow(articles[..n], k);
    }
  }

  /** Different image names give different image URLs. */
  lemma ArticleImageUrlInjective(x: string, y: string)
    requires ArticleImageUrl(x) == ArticleImageUrl(y)
    ensures x == y
  {
    var n := |BaseUrl + ArticleImagesDir|;
    assert x == ArticleImageUrl(x)[n..];
    assert y == ArticleImageUrl(y)[n..];
  }

  /** The four fixed records: the site root, `/home`, `/projects` and `/articles`. */
  function StaticUrls(projects: seq<Project>, articles: seq<Article>, today: string): (rs: seq<UrlRecord>)
    ensures |rs| == 4
  {
    [ UrlRecord(BaseUrl, today, "weekly", "1.0", []),
      UrlRecord(BaseUrl + "/home", today, "weekly", "0.9", []),
      UrlRecord(BaseUrl + "/projects", LastProjectUpdate(projects, today), "weekly", "0.9",
                if |projects| > 0 then [ProjectImageUrl(projects[0].id, CoverImage(projects[0]))] else []),
      UrlRecord(BaseUrl + "/articles", LastArticleUpdate(articles, today), "weekly", "0.8",
                if |articles| > 0 then ArticleListImages(articles) else []) ]
  }

  function ProjectUrls(projects: seq<Project>): (rs: seq<UrlRecord>)
    ensures |rs| == |projects|
    ensures forall i :: 0 <= i < |projects| ==> rs[i] == ProjectRecord(projects[i])
  {
    seq(|projects|, i requires 0 <= i < |projects| => ProjectRecord(projects[i]))
  }

  function ArticleUrls(articles: seq<Article>): (rs: seq<UrlRecord>)
    ensures |rs| == |articles|
    ensures forall i :: 0 <= i < |articles| ==> rs[i] == ArticleRecord(articles[i])
  {
    seq(|articles|, i requires 0 <= i < |articles| => ArticleRecord(articles[i]))
  }

  /** `[...staticUrls, ...projectUrls, ...articleUrls]`. */
  function AllUrls(projects: seq<Project>, articles: seq<Article>, today: string): seq<UrlRecord>
  {
    StaticUrls(projects, articles, today) + ProjectUrls(projects) + ArticleUrls(articles)
  }

  /** The generated document. */
  function SitemapDocument(projects: seq<Project>, articles: seq<Article>, today: string): string
  {
    Document(ImageSitemapHead, AllUrls(projects, articles, today))
  }

  /**
   * The fixed records: the root at "1.0" and `/home` at "0.9" dated today
   * without images; `/projects` at "0.9" with the first project's cover;
   * `/articles` at "0.8" with the images of the first two articles.
   */
  lemma StaticUrlsFields(projects: seq<Project>, articles: seq<Article>, today: string)
    ensures var rs := StaticUrls(projects, articles, today);
      && rs[0].loc == BaseUrl && rs[0].priority == "1.0" && rs[0].lastmod == today && rs[0].images == []
      && rs[1].loc == BaseUrl + "/home" && rs[1].priority == "0.9" && rs[1].lastmod == today && rs[1].images == []
      && rs[2].loc == BaseUrl + "/projects" && rs[2].priority == "0.9"
      && rs[2].lastmod == LastProjectUpdate(projects, today)
      && rs[2].images == (if |projects| > 0 then [ProjectImageUrl(projects[0].id, CoverImage(projects[0]))] else [])
      && rs[3].loc == BaseUrl + "/articles" && rs[3].priority == "0.8"
      && rs[3].lastmod == LastArticleUpdate(articles, today)
      && rs[3].images == ArticleListImages(articles) && |rs[3].images| <= 2
      && (forall i :: 0 <= i < 4 ==> rs[i].changefreq == "weekly")
  {
    if |articles| == 0 {
      assert Take(articles, 2) == [];
    }
  }

  /** The record order: four static records, then one record per project, then one per article, each in input order. */
  lemma AllUrlsLayout(projects: seq<Project>, articles: seq<Article>, today: string)
    ensures var rs := AllUrls(projects, articles, today);
      && |rs| == 4 + |projects| + |articles|
      && rs[..4] == StaticUrls(projects, articles, today)
      && rs[4..4 + |projects|] == ProjectUrls(projects)
      && rs[4 + |projects|..] == ArticleUrls(articles)
  {
    ConcatParts(StaticUrls(projects, articles, today), ProjectUrls(projects), ArticleUrls(articles));
  }

  // ---------------------------------------------------------------------
  // Decoding the generated document

  /** Inputs whose text holds no `<`: the generator escapes nothing, so only these read back unchanged. */
  predicate PlainProject(p: Project)
  {
    && NoAngle(p.id) && NoAngle(p.date)
    && (p.lastUpdated.Some? ==> NoAngle(p.lastUpdated.value))
    && (p.images.Some? ==> forall i :: 0 <= i < |p.images.value| ==> NoAngle(p.images.value[i]))
  }

  predicate PlainArticle(a: Article)
  {
    && NoAngle(a.slug) && NoAngle(a.date)
    && (a.lastUpdated.Some? ==> NoAngle(a.lastUpdated.value))
    && (a.image.Some? ==> NoAngle(a.image.value))
  }

  /** No fixed text the generator puts into a field holds `<`. */
  lemma ConstantsNoAngle()
    ensures NoAngle(BaseUrl) && NoAngle(ProjectImagesDir) && NoAngle(ArticleImagesDir)
    ensures NoAngle("/projects/") && NoAngle("/articles/") && NoAngle("/home") && NoAngle("/projects")
    ensures NoAngle("/articles") && NoAngle("/") && NoAngle("preview.webp")
    ensures NoAngle("weekly") && NoAngle("monthly") && NoAngle("quarterly") && NoAngle("1.0")
    ensures NoAngle("0.9") && NoAngle("0.8")
  {
    assert forall k :: 0 <= k < |BaseUrl| ==> BaseUrl[k] != '<';
    assert forall k :: 0 <= k < |ProjectImagesDir| ==> ProjectImagesDir[k] != '<';
    assert forall k :: 0 <= k < |ArticleImagesDir| ==> ArticleImagesDir[k] != '<';
  }

  lemma PriorityTextNoAngle(h: int)
    requires 0 <= h <= 100
    ensures NoAngle(PriorityText(h))
  {
    var s := PriorityText(h);
    assert forall k :: 0 <= k < |s| ==> s[k] != '<';
  }

  lemma LastUpdateNoAngle(dates: seq<string>, today: string)
    requires NoAngle(today)
    requires forall i :: 0 <= i < |dates| ==> NoAngle(dates[i])
    ensures NoAngle(LastUpdate(dates, today))
  {
    if dates != [] && Latest(dates) != "" {
      DatePartNoAngle(Latest(dates));
    }
  }

  lemma ProjectImageUrlNoAngle(id: string, image: string)
    requires NoAngle(id) && NoAngle(image)
    ensures NoAngle(ProjectImageUrl(id, image))
  {
    ConstantsNoAngle();
    NoAngleAppend(BaseUrl, ProjectImagesDir);
    NoAngleAppend(BaseUrl + ProjectImagesDir, id);
    NoAngleAppend(BaseUrl + ProjectImagesDir + id, "/");
    NoAngleAppend(BaseUrl + ProjectImagesDir + id + "/", image);
  }

  lemma ArticleImageUrlNoAngle(image: string)
    requires NoAngle(image)
    ensures NoAngle(ArticleImageUrl(image))
  {
    ConstantsNoAngle();
    NoAngleAppend(BaseUrl, ArticleImagesDir);
    NoAngleAppend(BaseUrl + ArticleImagesDir, image);
  }

  lemma EffectiveDateNoAngle(lastUpdated: Option<string>, date: string)
    requires NoAngle(date) && (lastUpdated.Some? ==> NoAngle(lastUpdated.value))
    ensures NoAngle(DatePart(EffectiveDate(lastUpdated, date)))
  {
    DatePartNoAngle(EffectiveDate(lastUpdated, date));
  }

  lemma ProjectRecordWellFormed(p: Project)
    requires PlainProject(p)
    ensures WellFormed(ProjectRecord(p))
  {
    var r := ProjectRecord(p);
    ConstantsNoAngle();
    NoAngleAppend(BaseUrl, "/projects/");
    NoAngleAppend(BaseUrl + "/projects/", p.id);
    assert NoAngle(r.loc);
    EffectiveDateNoAngle(p.lastUpdated, p.date);
    assert NoAngle(r.lastmod);
    assert NoAngle(r.changefreq);
    PriorityTextNoAngle(ProjectPriority(p));
    assert NoAngle(r.priority);
    var images := ProjectImages(p);
    forall i | 0 <= i < |images| ensures NoAngle(images[i]) {
      ProjectImageUrlNoAngle(p.id, p.images.value[i]);
    }
  }

  lemma ArticleRecordWellFormed(a: Article)
    requires PlainArticle(a)
    ensures WellFormed(ArticleRecord(a))
  {
    var r := ArticleRecord(a);
    ConstantsNoAngle();
    NoAngleAppend(BaseUrl, "/articles/");
    NoAngleAppend(BaseUrl + "/articles/", a.slug);
    assert NoAngle(r.loc);
    EffectiveDateNoAngle(a.lastUpdated, a.date);
    assert NoAngle(r.lastmod);
    assert NoAngle(r.changefreq);
    PriorityTextNoAngle(ArticlePriority(a));
    assert NoAngle(r.priority);
    if Truthy(a.image) {
      ArticleImageUrlNoAngle(a.image.value);
    }
  }

  lemma ProjectsListRecordWellFormed(projects: seq<Project>, articles: seq<Article>, today: string)
    requires NoAngle(today)
    requires forall i :: 0 <= i < |projects| ==> PlainProject(projects[i])
    ensures WellFormed(StaticUrls(projects, articles, today)[2])
  {
    ConstantsNoAngle();
    NoAngleAppend(BaseUrl, "/projects");
    LastUpdateNoAngle(ProjectDates(projects), today);
    if |projects| > 0 {
      var p := projects[0];
      assert NoAngle(CoverImage(p)) by {
        if p.images.Some? && |p.images.value| > 0 {
          assert NoAngle(p.images.value[0]);
        }
      }
      ProjectImageUrlNoAngle(p.id, CoverImage(p));
    }
  }

  lemma ArticlesListRecordWellFormed(projects: seq<Project>, articles: seq<Article>, today: string)
    requires NoAngle(today)
    requires forall j :: 0 <= j < |articles| ==> PlainArticle(articles[j])
    ensures WellFormed(StaticUrls(projects, articles, today)[3])
  {
    ConstantsNoAngle();
    NoAngleAppend(BaseUrl, "/articles");
    LastUpdateNoAngle(ArticleDates(articles), today);
    var imgs := ArticleListImages(articles);
    ArticleListImagesExact(articles);
    forall i | 0 <= i < |imgs| ensures NoAngle(imgs[i]) {
      var k :| 0 <= k < |Take(articles, 2)| && Truthy(articles[k].image) && imgs[i] == ArticleImageUrl(articles[k].image.value);
      ArticleImageUrlNoAngle(articles[k].image.value);
    }
  }

  lemma StaticUrlsWellFormed(projects: seq<Project>, articles: seq<Article>, today: string)
    requires NoAngle(today)
    requires forall i :: 0 <= i < |projects| ==> PlainProject(projects[i])
    requires forall j :: 0 <= j < |articles| ==> PlainArticle(articles[j])
    ensures forall i :: 0 <= i < 4 ==> WellFormed(StaticUrls(projects, articles, today)[i])
  {
    ConstantsNoAngle();
    NoAngleAppend(BaseUrl, "/home");
    ProjectsListRecordWellFormed(projects, articles, today);
    ArticlesListRecordWellFormed(projects, articles, today);
  }

  /** Reading the generated document back gives exactly the records, in order, for inputs free of `<`. */
  lemma SitemapDocumentRoundTrip(projects: seq<Project>, articles: seq<Article>, today: string)
    requires NoAngle(today)
    requires forall i :: 0 <= i < |projects| ==> PlainProject(projects[i])
    requires forall j :: 0 <= j < |articles| ==> PlainArticle(articles[j])
    ensures Decode(ImageSitemapHead, SitemapDocument(projects, articles, today)) == Some(AllUrls(projects, articles, today))
  {
    var rs := AllUrls(projects, articles, today);
    AllUrlsLayout(projects, articles, today);
    StaticUrlsWellFormed(projects, articles, today);
    forall k | 0 <= k < |rs| ensures WellFormed(rs[k]) {
      if k < 4 {
        assert rs[k] == rs[..4][k];
      } else if k < 4 + |projects| {
        assert rs[k] == rs[4..4 + |projects|][k - 4];
        ProjectRecordWellFormed(projects[k - 4]);
      } else {
        assert rs[k] == rs[4 + |projects|..][k - 4 - |projects|];
        ArticleRecordWellFormed(articles[k - 4 - |projects|]);
      }
    }
    DocumentRoundTrip(ImageSitemapHead, rs);
  }
}

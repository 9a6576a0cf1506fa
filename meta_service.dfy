/**
 * `MetaService` (`src/app/services/meta.service.ts`): the page title, the
 * `<meta>` tags written by `updateMeta`, the canonical link, and the
 * per-page configurations. Angular's `Meta`/`Title` services and the
 * `<link rel="canonical">` element are fields of `MetaState`; the current
 * route is a parameter.
 */
module MetaService {
  import opened Wrappers
  import opened Text
  import opened Content

  const BaseUrl := "https://azotodev.com"
  const SiteName := "AzotoDev - Luis Hernández"
  const TwitterHandle := "@azotodev"
  const AuthorName := "Luis Hernández (AzotoDev)"
  const NoIndexRobots := "noindex, nofollow"
  const IndexRobots := "index, follow, max-image-preview:large"

  datatype MetaConfig = MetaConfig(
    title: string,
    description: string,
    keywords: Option<string>,
    ogImage: Option<string>,
    canonical: Option<string>,
    noindex: Option<bool>
  )

  /** The tags `updateMeta` writes. */
  datatype Tag =
    | Description | Author | Keywords
    | OgTitle | OgDescription | OgSiteName | OgUrl | OgImage | OgImageWidth | OgImageHeight
    | TwitterCard | TwitterTitle | TwitterDescription | TwitterCreator | TwitterSite | TwitterImage
    | Robots

  /** The attribute that selects a tag: `name="..."` (true) or `property="..."` (false), and its value. */
  function Selector(t: Tag): (bool, string)
  {
    match t
    case Description => (true, "description")
    case Author => (true, "author")
    case Keywords => (true, "keywords")
    case OgTitle => (false, "og:title")
    case OgDescription => (false, "og:description")
    case OgSiteName => (false, "og:site_name")
    case OgUrl => (false, "og:url")
    case OgImage => (false, "og:image")
    case OgImageWidth => (false, "og:image:width")
    case OgImageHeight => (false, "og:image:height")
    case TwitterCard => (true, "twitter:card")
    case TwitterTitle => (true, "twitter:title")
    case TwitterDescription => (true, "twitter:description")
    case TwitterCreator => (true, "twitter:creator")
    case TwitterSite => (true, "twitter:site")
    case TwitterImage => (true, "twitter:image")
    case Robots => (true, "robots")
  }

  // ---------------------------------------------------------------------
  // Choices

  /** An image that starts with `http` is absolute; anything else is a path under the site. */
  function ResolveImage(image: string): (url: string)
    ensures "http" <= image ==> url == image
    ensures !("http" <= image) ==> url == BaseUrl + image
  {
    if "http" <= image then image else BaseUrl + image
  }

  lemma BaseUrlIsHttp(path: string)
    ensures "http" <= BaseUrl + path
  {
    assert (BaseUrl + path)[..4] == BaseUrl[..4] == "http";
  }

  /** Resolving is idempotent: a resolved URL always starts with `http`. */
  lemma ResolveImageIdempotent(image: string)
    ensures "http" <= ResolveImage(image)
    ensures ResolveImage(ResolveImage(image)) == ResolveImage(image)
  {
    if !("http" <= image) {
      BaseUrlIsHttp(image);
    }
  }

  /** `custom || baseUrl + route`: the page's canonical URL. */
  function CanonicalUrl(custom: Option<string>, route: string): (url: string)
    ensures Truthy(custom) ==> url == custom.value
    ensures !Truthy(custom) ==> url == BaseUrl + route
  {
    OrElse(custom, BaseUrl + route)
  }

  /** The robots directive: no indexing exactly when `noindex` is set to true. */
  function RobotsContent(noindex: Option<bool>): (r: string)
    ensures r == NoIndexRobots <==> noindex == Some(true)
    ensures r == NoIndexRobots || r == IndexRobots
  {
    if noindex == Some(true) then NoIndexRobots else IndexRobots
  }

  /** Whether `updateMeta` writes tag `t`: keywords only when given, the image tags only with an image. */
  predicate Written(t: Tag, config: MetaConfig)
  {
    match t
    case Keywords => Truthy(config.keywords)
    case OgImage | OgImageWidth | OgImageHeight | TwitterImage => Truthy(config.ogImage)
    case _ => true
  }

  /** The content `updateMeta` gives tag `t`. */
  function TagContent(t: Tag, config: MetaConfig, route: string): string
  {
    match t
    case Description | OgDescription | TwitterDescription => config.description
    case Author => AuthorName
    case Keywords => OrElse(config.keywords, "")
    case OgTitle | TwitterTitle => config.title
    case OgSiteName => SiteName
    case OgUrl => CanonicalUrl(config.canonical, route)
    case OgImage | TwitterImage => ResolveImage(OrElse(config.ogImage, ""))
    case OgImageWidth => "1200"
    case OgImageHeight => "630"
    case TwitterCard => "summary_large_image"
    case TwitterCreator | TwitterSite => TwitterHandle
    case Robots => RobotsContent(config.noindex)
  }

  /** The tags `updateMeta` writes for `config` on `route`, by key. */
  function MetaTags(config: MetaConfig, route: string): (m: map<Tag, string>)
    ensures Description in m && m[Description] == config.description
    ensures OgDescription in m && m[OgDescription] == config.description
    ensures TwitterDescription in m && m[TwitterDescription] == config.description
    ensures OgTitle in m && m[OgTitle] == config.title
    ensures TwitterTitle in m && m[TwitterTitle] == config.title
    ensures Keywords in m <==> Truthy(config.keywords)
    ensures Truthy(config.keywords) ==> m[Keywords] == config.keywords.value
    ensures OgImage in m <==> Truthy(config.ogImage)
    ensures TwitterImage in m <==> Truthy(config.ogImage)
    ensures OgImageWidth in m <==> Truthy(config.ogImage)
    ensures OgImageHeight in m <==> Truthy(config.ogImage)
    ensures Truthy(config.ogImage) ==>
              && m[OgImage] == ResolveImage(config.ogImage.value)
              && m[TwitterImage] == ResolveImage(config.ogImage.value)
              && m[OgImageWidth] == "1200" && m[OgImageHeight] == "630"
    ensures OgUrl in m && m[OgUrl] == CanonicalUrl(config.canonical, route)
    ensures Robots in m && m[Robots] == RobotsContent(config.noindex)
  {
    var m := map t: Tag | Written(t, config) :: TagContent(t, config, route);
    assert Description in m && OgDescription in m && TwitterDescription in m && OgTitle in m && TwitterTitle in m;
    assert OgUrl in m && Robots in m;
    assert Keywords in m <==> Truthy(config.keywords);
    assert OgImage in m <==> Truthy(config.ogImage);
    assert TwitterImage in m <==> Truthy(config.ogImage);
    assert OgImageWidth in m <==> Truthy(config.ogImage);
    assert OgImageHeight in m <==> Truthy(config.ogImage);
    m
  }

  /** The tags `updateMeta` writes with the same content for every page: author, site name, card type and handles. */
  lemma MetaTagsFixed(config: MetaConfig, route: string)
    ensures Author in MetaTags(config, route) && MetaTags(config, route)[Author] == AuthorName
    ensures OgSiteName in MetaTags(config, route) && MetaTags(config, route)[OgSiteName] == SiteName
    ensures TwitterCard in MetaTags(config, route) && MetaTags(config, route)[TwitterCard] == "summary_large_image"
    ensures TwitterCreator in MetaTags(config, route) && MetaTags(config, route)[TwitterCreator] == TwitterHandle
    ensures TwitterSite in MetaTags(config, route) && MetaTags(config, route)[TwitterSite] == TwitterHandle
  {
  }

  // ---------------------------------------------------------------------
  // Page configurations

  const HomeTitle := "Luis Hernández (AzotoDev) - Desarrollador Full Stack | Portfolio Angular & TypeScript"
  const HomeDescription := "Portfolio profesional de Luis Hernández (AzotoDev), desarrollador Full Stack especializado en Angular, TypeScript y Tailwind CSS. Sistemas de inventario, control de gestión y aplicaciones web modernas."
  const HomeKeywords := "Luis Hernández, AzotoDev, desarrollador full stack, angular developer, typescript, tailwind css, portfolio desarrollador, desarrollo web, sistemas inventario"
  const ProjectsTitle := "Proyectos | AzotoDev - Portfolio de Desarrollo Web Angular & TypeScript"
  const ProjectsDescription := "Explora mis proyectos de desarrollo web: sistemas de inventario, control de gestión, plataformas documentales y aplicaciones Angular. Cada proyecto incluye tecnologías utilizadas y casos de estudio."
  const ProjectsKeywords := "proyectos angular, portfolio typescript, sistemas inventario, control gestión, aplicaciones web, casos de estudio"
  const ArticlesTitle := "Artículos Técnicos | AzotoDev - Blog Angular, TypeScript y Desarrollo Web"
  const ArticlesDescription := "Blog técnico sobre desarrollo web moderno: tutoriales Angular, guías TypeScript, mejores prácticas de desarrollo y las últimas tendencias en tecnología web."
  const ArticlesKeywords := "blog desarrollo web, tutoriales angular, guías typescript, mejores prácticas, artículos técnicos"
  const DefaultProjectImage := "/assets/images/og-projects.webp"
  const DefaultArticleImage := "/assets/images/og-articles.webp"

  function HomeMeta(): MetaConfig
  {
    MetaConfig(HomeTitle, HomeDescription, Some(HomeKeywords), Some(BaseUrl + "/assets/images/og-home.webp"),
               Some(BaseUrl), None)
  }

  function ProjectsPageMeta(): MetaConfig
  {
    MetaConfig(ProjectsTitle, ProjectsDescription, Some(ProjectsKeywords), Some(BaseUrl + DefaultProjectImage),
               Some(BaseUrl + "/projects"), None)
  }

  function ArticlesPageMeta(): MetaConfig
  {
    MetaConfig(ArticlesTitle, ArticlesDescription, Some(ArticlesKeywords), Some(BaseUrl + DefaultArticleImage),
               Some(BaseUrl + "/articles"), None)
  }

  /** `list?.join(', ')`: `None` when the list is absent. */
  function JoinList(list: Option<seq<string>>): Option<string>
  {
    match list
    case None => None
    case Some(items) => Some(Join(items, ", "))
  }

  /** `project.images?.[0]`. */
  function FirstImage(p: Project): Option<string>
  {
    if p.images.Some? && |p.images.value| > 0 then Some(p.images.value[0]) else None
  }

  /** The project's first image when it has one, else the default projects image. */
  function ProjectImage(p: Project): string
  {
    if Truthy(FirstImage(p)) then BaseUrl + "/assets/images/projects/" + p.id + "/" + FirstImage(p).value
    else BaseUrl + DefaultProjectImage
  }

  function ProjectMeta(p: Project): MetaConfig
  {
    var technologies := JoinList(p.technologies);
    MetaConfig(
      p.title + " | AzotoDev - Proyecto de Desarrollo Web",
      if p.description != "" then p.description
      else "Proyecto " + p.title + " desarrollado con " + OrElse(technologies, "tecnologías modernas")
           + ". Explora el caso de estudio completo.",
      Some(p.title + ", " + OrElse(technologies, "") + ", proyecto angular, desarrollo web, azotodev"),
      Some(ProjectImage(p)),
      Some(BaseUrl + "/projects/" + p.id),
      None)
  }

  function ArticleMeta(a: Article): MetaConfig
  {
    MetaConfig(
      a.title + " | AzotoDev - Blog Técnico",
      OrElse(a.description, OrElse(a.summary, "Artículo técnico sobre " + a.title
                                             + ". Aprende sobre desarrollo web moderno.")),
      Some(a.title + ", " + OrElse(JoinList(a.tags), "") + ", tutorial, desarrollo web, azotodev"),
      Some(if Truthy(a.image) then BaseUrl + "/assets/images/articles/" + a.image.value
           else BaseUrl + DefaultArticleImage),
      Some(BaseUrl + "/articles/" + a.slug),
      None)
  }

  /** A page with its own canonical URL and an absolute image shows both unchanged and allows indexing. */
  lemma OwnPageTags(config: MetaConfig, route: string)
    requires Truthy(config.canonical) && Truthy(config.ogImage) && "http" <= config.ogImage.value
    requires config.noindex.None?
    ensures var m := MetaTags(config, route);
      && m[OgUrl] == config.canonical.value && m[OgImage] == config.ogImage.value
      && m[Robots] == IndexRobots && m[OgTitle] == config.title
  {
  }

  /**
   * On a project page the tags name the project's own URL whatever the
   * route, show its first image (or the default projects image) unchanged,
   * and allow indexing.
   */
  lemma ProjectPageTags(p: Project, route: string)
    ensures var m := MetaTags(ProjectMeta(p), route);
      && m[OgUrl] == BaseUrl + "/projects/" + p.id
      && m[OgImage] == (if Truthy(FirstImage(p)) then BaseUrl + "/assets/images/projects/" + p.id + "/" + FirstImage(p).value
                        else BaseUrl + DefaultProjectImage)
      && m[Robots] == IndexRobots
      && m[OgTitle] == p.title + " | AzotoDev - Proyecto de Desarrollo Web"
  {
    var c := ProjectMeta(p);
    var canonical := BaseUrl + "/projects/" + p.id;
    assert c.canonical == Some(canonical);
    BaseUrlIsHttp("/projects/" + p.id);
    assert canonical == BaseUrl + ("/projects/" + p.id);
    assert c.ogImage == Some(ProjectImage(p));
    if Truthy(FirstImage(p)) {
      var path := "/assets/images/projects/" + p.id + "/" + FirstImage(p).value;
      BaseUrlIsHttp(path);
      assert ProjectImage(p) == BaseUrl + path;
    } else {
      BaseUrlIsHttp(DefaultProjectImage);
    }
    OwnPageTags(c, route);
  }

  /**
   * On an article page the tags name the article's own URL and show its
   * image (or the default articles image) unchanged; the description is
   * the first of `description`, `summary` and the template that is set.
   */
  lemma ArticlePageTags(a: Article, route: string)
    ensures var m := MetaTags(ArticleMeta(a), route);
      && m[OgUrl] == BaseUrl + "/articles/" + a.slug
      && m[OgImage] == (if Truthy(a.image) then BaseUrl + "/assets/images/articles/" + a.image.value
                                     else BaseUrl + DefaultArticleImage)
      && m[Robots] == IndexRobots
    ensures Truthy(a.description) ==> ArticleMeta(a).description == a.description.value
    ensures !Truthy(a.description) && Truthy(a.summary) ==> ArticleMeta(a).description == a.summary.value
    ensures !Truthy(a.description) && !Truthy(a.summary) ==>
              ArticleMeta(a).description == "Artículo técnico sobre " + a.title + ". Aprende sobre desarrollo web moderno."
  {
    var c := ArticleMeta(a);
    BaseUrlIsHttp("/articles/" + a.slug);
    assert BaseUrl + "/articles/" + a.slug == BaseUrl + ("/articles/" + a.slug);
    assert Truthy(c.canonical);
    if Truthy(a.image) {
      BaseUrlIsHttp("/assets/images/articles/" + a.image.value);
      assert BaseUrl + "/assets/images/articles/" + a.image.value
          == BaseUrl + ("/assets/images/articles/" + a.image.value);
    } else {
      BaseUrlIsHttp(DefaultArticleImage);
    }
    OwnPageTags(c, route);
  }

  /** The home page's canonical URL is the site itself, on every route. */
  lemma HomePageTags(route: string)
    ensures MetaTags(HomeMeta(), route)[OgUrl] == BaseUrl
    ensures MetaTags(HomeMeta(), route)[OgImage] == BaseUrl + "/assets/images/og-home.webp"
  {
    BaseUrlIsHttp("/assets/images/og-home.webp");
  }

  /** The projects listing page names `/projects` and the default projects image, on every route. */
  lemma ProjectsPageTags(route: string)
    ensures MetaTags(ProjectsPageMeta(), route)[OgUrl] == BaseUrl + "/projects"
    ensures MetaTags(ProjectsPageMeta(), route)[OgImage] == BaseUrl + DefaultProjectImage
  {
    BaseUrlIsHttp(DefaultProjectImage);
  }

  /** The articles listing page names `/articles` and the default articles image, on every route. */
  lemma ArticlesPageTags(route: string)
    ensures MetaTags(ArticlesPageMeta(), route)[OgUrl] == BaseUrl + "/articles"
    ensures MetaTags(ArticlesPageMeta(), route)[OgImage] == BaseUrl + DefaultArticleImage
  {
    BaseUrlIsHttp(DefaultArticleImage);
  }

  /**
   * The writes of `updateMeta`, in order, applied to the tags `start`:
   * exactly the tags of `MetaTags` change.
   */
  function ApplyWrites(start: map<Tag, string>, config: MetaConfig, route: string): map<Tag, string>
  {
    var m := start[Description := config.description][Author := AuthorName];
    var m := if Truthy(config.keywords) then m[Keywords := config.keywords.value] else m;
    var m := m[OgTitle := config.title][OgDescription := config.description][OgSiteName := SiteName]
              [OgUrl := CanonicalUrl(config.canonical, route)];
    var m := if Truthy(config.ogImage) then
               m[OgImage := ResolveImage(config.ogImage.value)][OgImageWidth := "1200"][OgImageHeight := "630"]
             else m;
    var m := m[TwitterCard := "summary_large_image"][TwitterTitle := config.title]
              [TwitterDescription := config.description][TwitterCreator := TwitterHandle][TwitterSite := TwitterHandle];
    var m := if Truthy(config.ogImage) then m[TwitterImage := ResolveImage(config.ogImage.value)] else m;
    m[Robots := RobotsContent(config.noindex)]
  }

  lemma WrittenTagsKeys(start: map<Tag, string>, config: MetaConfig, route: string)
    ensures forall t :: t in ApplyWrites(start, config, route) <==> t in start || Written(t, config)
  {
    WrittenTagsPresent(start, config, route);
    WrittenTagsOnly(start, config, route);
  }

  /** Every tag written, and every tag there before, is there after. */
  lemma WrittenTagsPresent(start: map<Tag, string>, config: MetaConfig, route: string)
    ensures forall t :: t in start || Written(t, config) ==> t in ApplyWrites(start, config, route)
  {
    var m := ApplyWrites(start, config, route);
    forall t | t in start || Written(t, config) ensures t in m {
      match t
      case Description =>
      case Author =>
      case Keywords =>
      case OgTitle =>
      case OgDescription =>
      case OgSiteName =>
      case OgUrl =>
      case OgImage =>
      case OgImageWidth =>
      case OgImageHeight =>
      case TwitterCard =>
      case TwitterTitle =>
      case TwitterDescription =>
      case TwitterCreator =>
      case TwitterSite =>
      case TwitterImage =>
      case Robots =>
    }
  }

  /** No tag appears that was neither there before nor written. */
  lemma WrittenTagsOnly(start: map<Tag, string>, config: MetaConfig, route: string)
    ensures forall t :: t in ApplyWrites(start, config, route) ==> t in start || Written(t, config)
  {
    var m := ApplyWrites(start, config, route);
    forall t | t in m ensures t in start || Written(t, config) {
      match t
      case Description =>
      case Author =>
      case Keywords =>
      case OgTitle =>
      case OgDescription =>
      case OgSiteName =>
      case OgUrl =>
      case OgImage =>
      case OgImageWidth =>
      case OgImageHeight =>
      case TwitterCard =>
      case TwitterTitle =>
      case TwitterDescription =>
      case TwitterCreator =>
      case TwitterSite =>
      case TwitterImage =>
      case Robots =>
    }
  }

  lemma WrittenTagsValues(start: map<Tag, string>, config: MetaConfig, route: string)
    ensures forall t :: Written(t, config) ==> ApplyWrites(start, config, route)[t] == TagContent(t, config, route)
  {
    forall t | Written(t, config) ensures ApplyWrites(start, config, route)[t] == TagContent(t, config, route) {
      WrittenValue(start, config, route, t);
    }
  }

  lemma WrittenValue(start: map<Tag, string>, config: MetaConfig, route: string, t: Tag)
    requires Written(t, config)
    ensures t in ApplyWrites(start, config, route) && ApplyWrites(start, config, route)[t] == TagContent(t, config, route)
  {
    match t
    case Description =>
    case Author =>
    case Keywords =>
    case OgTitle =>
    case OgDescription =>
    case OgSiteName =>
    case OgUrl =>
    case OgImage =>
    case OgImageWidth =>
    case OgImageHeight =>
    case TwitterCard =>
    case TwitterTitle =>
    case TwitterDescription =>
    case TwitterCreator =>
    case TwitterSite =>
    case TwitterImage =>
    case Robots =>
  }

  lemma UntouchedTags(start: map<Tag, string>, config: MetaConfig, route: string)
    ensures forall t :: !Written(t, config) && t in start ==> ApplyWrites(start, config, route)[t] == start[t]
  {
    var m := ApplyWrites(start, config, route);
    WrittenTagsKeys(start, config, route);
    forall t | !Written(t, config) && t in start ensures m[t] == start[t] {
      match t
      case Description =>
      case Author =>
      case Keywords =>
      case OgTitle =>
      case OgDescription =>
      case OgSiteName =>
      case OgUrl =>
      case OgImage =>
      case OgImageWidth =>
      case OgImageHeight =>
      case TwitterCard =>
      case TwitterTitle =>
      case TwitterDescription =>
      case TwitterCreator =>
      case TwitterSite =>
      case TwitterImage =>
      case Robots =>
    }
  }

  /** Applying the writes replaces exactly the tags of `MetaTags` and keeps every other tag. */
  lemma WrittenTags(start: map<Tag, string>, config: MetaConfig, route: string)
    ensures ApplyWrites(start, config, route) == start + MetaTags(config, route)
  {
    WrittenTagsKeys(start, config, route);
    WrittenTagsValues(start, config, route);
    UntouchedTags(start, config, route);
  }

  // ---------------------------------------------------------------------
  // The document head

  class MetaState {
    var documentTitle: string
    var tags: map<Tag, string>
    var canonicalLink: Option<string>

    constructor()
      ensures documentTitle == "" && tags == map[] && canonicalLink == None
    {
      documentTitle := "";
      tags := map[];
      canonicalLink := None;
    }

    /** `updateCanonical`: the one canonical link now names `custom || baseUrl + route`. */
    method UpdateCanonical(custom: Option<string>, route: string)
      modifies this
      ensures canonicalLink == Some(CanonicalUrl(custom, route))
      ensures documentTitle == old(documentTitle) && tags == old(tags)
    {
      var canonicalUrl := OrElse(custom, BaseUrl + route);
      canonicalLink := Some(canonicalUrl);
    }

    /**
     * `updateMeta`: sets the title, writes the tags one by one (tags it
     * does not write keep their old content), then the canonical link.
     */
    method UpdateMeta(config: MetaConfig, route: string)
      modifies this
      ensures documentTitle == config.title
      ensures tags == old(tags) + MetaTags(config, route)
      ensures canonicalLink == Some(CanonicalUrl(config.canonical, route))
      ensures canonicalLink.value == tags[OgUrl]
    {
      var start := tags;
      documentTitle := config.title;
      var m := tags;
      m := m[Description := config.description];
      m := m[Author := AuthorName];
      if Truthy(config.keywords) {
        m := m[Keywords := config.keywords.value];
      }
      m := m[OgTitle := config.title];
      m := m[OgDescription := config.description];
      m := m[OgSiteName := SiteName];
      m := m[OgUrl := CanonicalUrl(config.canonical, route)];
      if Truthy(config.ogImage) {
        var imageUrl := ResolveImage(config.ogImage.value);
        m := m[OgImage := imageUrl];
        m := m[OgImageWidth := "1200"];
        m := m[OgImageHeight := "630"];
      }
      m := m[TwitterCard := "summary_large_image"];
      m := m[TwitterTitle := config.title];
      m := m[TwitterDescription := config.description];
      m := m[TwitterCreator := TwitterHandle];
      m := m[TwitterSite := TwitterHandle];
      if Truthy(config.ogImage) {
        var imageUrl := ResolveImage(config.ogImage.value);
        m := m[TwitterImage := imageUrl];
      }
      m := m[Robots := RobotsContent(config.noindex)];
      assert m == ApplyWrites(start, config, route);
      tags := m;
      UpdateCanonical(config.canonical, route);
      WrittenTags(start, config, route);
    }
  }
}

/**
 * `BreadcrumbService` (`src/app/services/breadcrumb.service.ts`): the
 * crumb trail built from the current route, the title lookups with their
 * fallback chain, the two id-to-title caches, and the schema.org
 * `BreadcrumbList` entries derived from the trail.
 *
 * HTTP loads are inputs (`LoadOutcome`); the route is a parameter; the
 * injected `<script>` element is the `structuredData` field.
 */
module BreadcrumbService {
  import opened Wrappers
  import opened Text

  datatype Crumb = Crumb(text: string, url: string, isActive: bool)

  /** A `{id, title}` or `{slug, title}` record as read from the content index. */
  datatype TitleEntry = TitleEntry(key: string, title: string)

  /** The snapshot of the service's cache that a title lookup reads. */
  datatype TitleCache = TitleCache(projects: map<string, string>, articles: map<string, string>, loaded: bool)

  /** One `ListItem` of the `BreadcrumbList` JSON-LD. */
  datatype ListItem = ListItem(position: int, name: string, item: string)

  /** The result of the HTTP loads: both index files, or an error. */
  datatype LoadOutcome = Loaded(projects: seq<TitleEntry>, articles: seq<TitleEntry>) | Failed

  const ProjectsPrefix := "/projects"
  const ArticlesPrefix := "/articles"
  const SiteUrl := "https://azotodev.web.app"

  const ProjectFallbacks: map<string, string> := map[
    "azotodev" := "AzotoDev Portfolio",
    "control-inventario" := "Sistema de Control de Inventario",
    "gestion-documental" := "Plataforma de Gestión Documental",
    "tickets-soporte" := "Sistema de Tickets de Soporte"
  ]

  const ArticleFallbacks: map<string, string> := map[
    "introduccion-a-angular" := "Introducción a Angular",
    "componentes-accesibles-angular-tailwind" := "Componentes Accesibles con Angular y Tailwind"
  ]

  // ---------------------------------------------------------------------
  // Title lookups

  /**
   * The title lookup chain: the loaded cache's entry, else the fixed
   * fallback table's, else the generic label. Only keys the table itself
   * holds are taken from it.
   */
  function Lookup(cache: map<string, string>, loaded: bool, fallbacks: map<string, string>, key: string, generic: string): (t: string)
    requires forall k :: k in fallbacks ==> fallbacks[k] != ""
    ensures loaded && key in cache ==> t == cache[key]
    ensures !(loaded && key in cache) && key in fallbacks ==> t == fallbacks[key]
    ensures !(loaded && key in cache) && key !in fallbacks ==> t == generic
    ensures t == generic || (loaded && key in cache && t == cache[key]) || (key in fallbacks && t == fallbacks[key])
  {
    if loaded && key in cache then cache[key]
    else if key in fallbacks then fallbacks[key]
    else generic
  }

  lemma FallbacksNonEmpty()
    ensures forall k :: k in ProjectFallbacks ==> ProjectFallbacks[k] != ""
    ensures forall k :: k in ArticleFallbacks ==> ArticleFallbacks[k] != ""
  {
  }

  /** `getProjectTitle`. */
  function ProjectTitle(cache: TitleCache, id: string): string
  {
    FallbacksNonEmpty();
    Lookup(cache.projects, cache.loaded, ProjectFallbacks, id, "Proyecto")
  }

  /** `getArticleTitle`. */
  function ArticleTitle(cache: TitleCache, slug: string): string
  {
    FallbacksNonEmpty();
    Lookup(cache.articles, cache.loaded, ArticleFallbacks, slug, "Artículo")
  }

  /** Before the cache is loaded, a project's title comes from the fixed table or is "Proyecto". */
  lemma ProjectTitleBeforeLoad(cache: TitleCache, id: string)
    requires !cache.loaded
    ensures ProjectTitle(cache, id) == (if id in ProjectFallbacks then ProjectFallbacks[id] else "Proyecto")
    ensures ProjectTitle(cache, id) != ""
  {
    FallbacksNonEmpty();
  }

  /**
   * `getProjectTitle`: the loaded cache's title, otherwise the table's own
   * entry or "Proyecto", which is never empty.
   */
  lemma ProjectTitleCases(cache: TitleCache, id: string)
    ensures cache.loaded && id in cache.projects ==> ProjectTitle(cache, id) == cache.projects[id]
    ensures !(cache.loaded && id in cache.projects) ==>
              && ProjectTitle(cache, id) == (if id in ProjectFallbacks then ProjectFallbacks[id] else "Proyecto")
              && ProjectTitle(cache, id) != ""
  {
    FallbacksNonEmpty();
  }

  /**
   * `getArticleTitle`: the loaded cache's title, otherwise the table's own
   * entry or "Artículo", which is never empty.
   */
  lemma ArticleTitleCases(cache: TitleCache, slug: string)
    ensures cache.loaded && slug in cache.articles ==> ArticleTitle(cache, slug) == cache.articles[slug]
    ensures !(cache.loaded && slug in cache.articles) ==>
              && ArticleTitle(cache, slug) == (if slug in ArticleFallbacks then ArticleFallbacks[slug] else "Artículo")
              && ArticleTitle(cache, slug) != ""
  {
    FallbacksNonEmpty();
  }

  // ---------------------------------------------------------------------
  // The fallback table as written: a plain object literal

  /** A JavaScript value read from a plain object: an own string, an inherited member, or `undefined`. */
  datatype JsValue = JsString(s: string) | JsInherited(name: string) | JsUndefined

  /** Names every plain object inherits from `Object.prototype`; all are truthy non-strings. */
  const PrototypeMembers: set<string> := {
    "constructor", "hasOwnProperty", "isPrototypeOf", "propertyIsEnumerable", "toString",
    "toLocaleString", "valueOf", "__proto__", "__defineGetter__", "__defineSetter__",
    "__lookupGetter__", "__lookupSetter__"
  }

  /** `table[key]` on an object literal. */
  function ObjectGet(table: map<string, string>, key: string): JsValue
  {
    if key in table then JsString(table[key])
    else if key in PrototypeMembers then JsInherited(key)
    else JsUndefined
  }

  predicate JsTruthy(v: JsValue)
  {
    match v
    case JsString(s) => s != ""
    case JsInherited(_) => true
    case JsUndefined => false
  }

  /** `getProjectTitle` as written: `fallbackTitles[projectId] || 'Proyecto'` on an object literal. */
  function ProjectTitleAsWritten(cache: TitleCache, id: string): JsValue
  {
    if cache.loaded && id in cache.projects then JsString(cache.projects[id])
    else
      var v := ObjectGet(ProjectFallbacks, id);
      if JsTruthy(v) then v else JsString("Proyecto")
  }

  /** The route `/projects/constructor` gets an inherited function, not a string, as its label. */
  lemma ProjectTitleAsWrittenInheritsMember()
    ensures ProjectTitleAsWritten(TitleCache(map[], map[], false), "constructor") == JsInherited("constructor")
  {
  }

  /** Away from the inherited names, the lookup as written and `ProjectTitle` agree. */
  lemma ProjectTitleAgrees(cache: TitleCache, id: string)
    requires id !in PrototypeMembers
    ensures ProjectTitleAsWritten(cache, id) == JsString(ProjectTitle(cache, id))
  {
    FallbacksNonEmpty();
  }

  // ---------------------------------------------------------------------
  // Building the trail

  /** `url.startsWith('/projects')` or `url.startsWith('/articles')`. */
  predicate SectionRoute(url: string)
  {
    ProjectsPrefix <= url || ArticlesPrefix <= url
  }

  /** `url.split('/').length > 2`: the route names an item below its section. */
  predicate ItemRoute(url: string)
  {
    |Split(url, '/')| > 2
  }

  /** The third crumb's label: the item's title by the second `/`-segment of the route. */
  function ItemTitle(url: string, cache: TitleCache): string
    requires ItemRoute(url)
  {
    var segments := Split(url, '/');
    if ProjectsPrefix <= url then ProjectTitle(cache, segments[2]) else ArticleTitle(cache, segments[2])
  }

  /**
   * The trail `buildBreadcrumbs` publishes for `url`: "Inicio" at `/home`,
   * then the section crumb on a section route, then the item crumb on an
   * item route, with only the last crumb active (or "Inicio" on `/` and
   * `/home`).
   */
  predicate TrailFor(crumbs: seq<Crumb>, url: string, cache: TitleCache)
  {
    && 1 <= |crumbs| <= 3
    && crumbs[0].text == "Inicio" && crumbs[0].url == "/home"
    && (|crumbs| >= 2 <==> SectionRoute(url))
    && (|crumbs| == 3 <==> SectionRoute(url) && ItemRoute(url))
    && (|crumbs| >= 2 ==> crumbs[1].text == (if ProjectsPrefix <= url then "Proyectos" else "Artículos"))
    && (|crumbs| >= 2 ==> crumbs[1].url == (if ProjectsPrefix <= url then "/projects" else "/articles"))
    && (|crumbs| == 3 ==> crumbs[2].url == url && crumbs[2].text == ItemTitle(url, cache))
    && (forall i :: 0 <= i < |crumbs| && crumbs[i].isActive ==> i == |crumbs| - 1)
    && (|crumbs| >= 2 ==> crumbs[|crumbs| - 1].isActive)
    && (crumbs[0].isActive <==> url == "/" || url == "/home")
  }

  /** A route and a cache determine the trail: two trails that both fit are equal. */
  lemma TrailForUnique(a: seq<Crumb>, b: seq<Crumb>, url: string, cache: TitleCache)
    requires TrailFor(a, url, cache) && TrailFor(b, url, cache)
    ensures a == b
  {
    assert |a| == |b|;
    forall i | 0 <= i < |a|
      ensures a[i] == b[i]
    {
      assert a[i].isActive == b[i].isActive by {
        if i < |a| - 1 {
          assert !a[i].isActive && !b[i].isActive;
        }
      }
    }
  }

  /** `buildBreadcrumbs`: pushes onto a local trail and marks the active crumb in place. */
  method ComputeBreadcrumbs(url: string, cache: TitleCache) returns (crumbs: seq<Crumb>)
    ensures TrailFor(crumbs, url, cache)
  {
    crumbs := [Crumb("Inicio", "/home", false)];
    if ProjectsPrefix <= url {
      crumbs := crumbs + [Crumb("Proyectos", "/projects", false)];
      var segments := Split(url, '/');
      if |segments| > 2 {
        var projectTitle := ProjectTitle(cache, segments[2]);
        crumbs := crumbs + [Crumb(projectTitle, url, true)];
      } else {
        crumbs := crumbs[|crumbs| - 1 := crumbs[|crumbs| - 1].(isActive := true)];
      }
    } else if ArticlesPrefix <= url {
      crumbs := crumbs + [Crumb("Artículos", "/articles", false)];
      var segments := Split(url, '/');
      if |segments| > 2 {
        var articleTitle := ArticleTitle(cache, segments[2]);
        crumbs := crumbs + [Crumb(articleTitle, url, true)];
      } else {
        crumbs := crumbs[|crumbs| - 1 := crumbs[|crumbs| - 1].(isActive := true)];
      }
    } else if url == "/" || url == "/home" {
      crumbs := crumbs[0 := crumbs[0].(isActive := true)];
    }
  }

  /** A route `/{section}/{id}` is an item route whose second segment is `id`, when neither holds a slash. */
  lemma ItemRouteOf(section: string, id: string)
    requires '/' !in section && '/' !in id
    ensures ItemRoute("/" + section + "/" + id)
    ensures Split("/" + section + "/" + id, '/')[2] == id
  {
    assert "/" + section + "/" + id == ("" + ['/'] + section) + ['/'] + id;
    SplitAround("" + ['/'] + section, '/', id);
    SplitAround("", '/', section);
    SplitWithoutSeparator("", '/');
    SplitWithoutSeparator(section, '/');
    SplitWithoutSeparator(id, '/');
  }

  /** `updateBreadcrumbStructuredData`: positions 1..n in trail order, each item the site URL plus the crumb's. */
  function StructuredData(crumbs: seq<Crumb>): (items: seq<ListItem>)
    ensures |items| == |crumbs|
    ensures forall i :: 0 <= i < |items| ==> items[i].position == i + 1 && items[i].name == crumbs[i].text
    ensures forall i :: 0 <= i < |items| ==> SiteUrl <= items[i].item && items[i].item[|SiteUrl|..] == crumbs[i].url
  {
    seq(|crumbs|, i requires 0 <= i < |crumbs| => ListItem(i + 1, crumbs[i].text, SiteUrl + crumbs[i].url))
  }

  // ---------------------------------------------------------------------
  // The cache

  /** `entries.forEach(e => cache.set(e.key, e.title))`: later entries overwrite earlier ones. */
  function Fill(m: map<string, string>, entries: seq<TitleEntry>): map<string, string>
  {
    if entries == [] then m
    else
      var last := entries[|entries| - 1];
      Fill(m, entries[..|entries| - 1])[last.key := last.title]
  }

  /**
   * After the fill every listed key is present, holding the title of its
   * last entry; keys not listed keep their old title; nothing else appears.
   */
  lemma {:induction false} FillFacts(m: map<string, string>, entries: seq<TitleEntry>)
    ensures forall k :: k in Fill(m, entries) <==> k in m || exists i :: 0 <= i < |entries| && entries[i].key == k
    ensures forall k :: k in m && (forall i :: 0 <= i < |entries| ==> entries[i].key != k) ==> Fill(m, entries)[k] == m[k]
    ensures forall i :: 0 <= i < |entries| && (forall j :: i < j < |entries| ==> entries[j].key != entries[i].key) ==>
              Fill(m, entries)[entries[i].key] == entries[i].title
  {
    if entries != [] {
      var n := |entries| - 1;
      var init := entries[..n];
      FillFacts(m, init);
      assert forall i :: 0 <= i < n ==> init[i] == entries[i];
    }
  }

  /** With distinct keys every entry's key maps to its own title. */
  lemma FillDistinct(m: map<string, string>, entries: seq<TitleEntry>)
    requires forall i, j :: 0 <= i < j < |entries| ==> entries[i].key != entries[j].key
    ensures forall i :: 0 <= i < |entries| ==> entries[i].key in Fill(m, entries)
    ensures forall i :: 0 <= i < |entries| ==> Fill(m, entries)[entries[i].key] == entries[i].title
  {
    FillFacts(m, entries);
  }

  class BreadcrumbServiceState {
    var projectsCache: map<string, string>
    var articlesCache: map<string, string>
    var cacheLoaded: bool
    var breadcrumbs: seq<Crumb>
    var structuredData: seq<ListItem>

    function Cache(): TitleCache
      reads this
    {
      TitleCache(projectsCache, articlesCache, cacheLoaded)
    }

    /** The published trail and its JSON-LD always describe the same crumbs. */
    predicate Valid()
      reads this
    {
      structuredData == StructuredData(breadcrumbs)
    }

    /** The service starts with empty caches and an empty trail, then loads the cache. */
    constructor(outcome: LoadOutcome, url: string)
      ensures Valid()
      ensures outcome.Failed? ==> projectsCache == map[] && articlesCache == map[] && !cacheLoaded
      ensures outcome.Failed? ==> breadcrumbs == []
      ensures outcome.Loaded? ==> cacheLoaded && projectsCache == Fill(map[], outcome.projects)
                                  && articlesCache == Fill(map[], outcome.articles)
      ensures outcome.Loaded? ==> TrailFor(breadcrumbs, url, Cache())
    {
      projectsCache := map[];
      articlesCache := map[];
      cacheLoaded := false;
      breadcrumbs := [];
      structuredData := [];
      new;
      LoadCache(outcome, url);
    }

    /** `buildBreadcrumbs` for the current route: publishes the trail and its JSON-LD. */
    method BuildBreadcrumbs(url: string)
      modifies this
      ensures projectsCache == old(projectsCache) && articlesCache == old(articlesCache)
      ensures cacheLoaded == old(cacheLoaded)
      ensures TrailFor(breadcrumbs, url, Cache())
      ensures Valid()
    {
      breadcrumbs := ComputeBreadcrumbs(url, Cache());
      structuredData := StructuredData(breadcrumbs);
    }

    /**
     * `loadCache`: on success each project id and article slug is set to its
     * title, the cache is marked loaded and the trail rebuilt. On failure
     * the fallback emits no pair of lists, so nothing changes.
     */
    method LoadCache(outcome: LoadOutcome, url: string)
      requires Valid()
      modifies this
      ensures Valid()
      ensures outcome.Failed? ==> projectsCache == old(projectsCache) && articlesCache == old(articlesCache)
                                  && cacheLoaded == old(cacheLoaded) && breadcrumbs == old(breadcrumbs)
                                  && structuredData == old(structuredData)
      ensures outcome.Loaded? ==> && projectsCache == Fill(old(projectsCache), outcome.projects)
                                  && articlesCache == Fill(old(articlesCache), outcome.articles)
                                  && cacheLoaded
      ensures outcome.Loaded? ==> TrailFor(breadcrumbs, url, Cache())
    {
      match outcome
      case Failed =>
      case Loaded(projects, articles) =>
        var i := 0;
        while i < |projects|
          invariant 0 <= i <= |projects|
          invariant projectsCache == Fill(old(projectsCache), projects[..i])
          invariant articlesCache == old(articlesCache) && Valid()
        {
          assert projects[..i + 1][..i] == projects[..i];
          projectsCache := projectsCache[projects[i].key := projects[i].title];
          i := i + 1;
        }
        assert projects[..|projects|] == projects;
        var j := 0;
        while j < |articles|
          invariant 0 <= j <= |articles|
          invariant articlesCache == Fill(old(articlesCache), articles[..j])
          invariant projectsCache == Fill(old(projectsCache), projects) && Valid()
        {
          assert articles[..j + 1][..j] == articles[..j];
          articlesCache := articlesCache[articles[j].key := articles[j].title];
          j := j + 1;
        }
        assert articles[..|articles|] == articles;
        cacheLoaded := true;
        BuildBreadcrumbs(url);
    }

    /** `refreshCache`: forgets every cached title and the loaded flag, then loads afresh. */
    method RefreshCache(outcome: LoadOutcome, url: string)
      requires Valid()
      modifies this
      ensures Valid()
      ensures outcome.Failed? ==> projectsCache == map[] && articlesCache == map[] && !cacheLoaded
      ensures outcome.Failed? ==> breadcrumbs == old(breadcrumbs) && structuredData == old(structuredData)
      ensures outcome.Loaded? ==> && projectsCache == Fill(map[], outcome.projects)
                                  && articlesCache == Fill(map[], outcome.articles)
                                  && cacheLoaded
      ensures outcome.Loaded? ==> TrailFor(breadcrumbs, url, Cache())
    {
      cacheLoaded := false;
      projectsCache := map[];
      articlesCache := map[];
      LoadCache(outcome, url);
    }

    /**
     * `preloadProjectTitle`: when `id` is not cached, stores the fetched
     * project's title under the fetched project's id, or "Proyecto" under
     * `id` when the fetch fails.
     */
    method PreloadProjectTitle(id: string, fetched: Option<TitleEntry>)
      modifies this
      ensures articlesCache == old(articlesCache) && cacheLoaded == old(cacheLoaded)
      ensures breadcrumbs == old(breadcrumbs) && structuredData == old(structuredData)
      ensures id in old(projectsCache) ==> projectsCache == old(projectsCache)
      ensures id !in old(projectsCache) && fetched.None? ==> projectsCache == old(projectsCache)[id := "Proyecto"]
      ensures id !in old(projectsCache) && fetched.Some? ==>
                projectsCache == old(projectsCache)[fetched.value.key := fetched.value.title]
      ensures old(projectsCache).Keys <= projectsCache.Keys
      ensures fetched.None? || fetched.value.key == id ==>
                forall k :: k in old(projectsCache) ==> projectsCache[k] == old(projectsCache)[k]
    {
      if id !in projectsCache {
        var project := match fetched case Some(p) => p case None => TitleEntry(id, "Proyecto");
        projectsCache := projectsCache[project.key := project.title];
      }
    }
  }
}

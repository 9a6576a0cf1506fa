# AzottoDev portfolio: sitemap, SEO and page-state model

A Dafny model of the logic inside the AzotoDev Angular portfolio (the
personal site of Luis Hernández), with proofs of what that logic promises.
Rendering and I/O are not part of it.

- **The build-time sitemap generator** (`scripts/generate-sitemap.js`). It covers:
  - the additive priority scores and their `toFixed(1)` text;
  - the newest-update date of each collection;
  - the URL records of the fixed pages, projects and articles, and their order;
  - the XML document those records become.

  A decoder (`SitemapXml.Decode`) reads the XML back, and a proof shows that the document returns exactly the records it was built from.
- **The in-app `SitemapService`**: the same kind of document without images, and with fixed priority texts.
- **`BreadcrumbService`**. It covers:
  - the crumb trail for a route;
  - the title lookups, with their cache → fixed table → generic label chain;
  - the two id→title caches and how loading, refreshing and preloading fill them;
  - the schema.org `BreadcrumbList` items.
- **`MetaService`**. It covers:
  - which meta tags `updateMeta` writes, and with what content;
  - the canonical link;
  - the page configurations for the home, project and article pages.
- **`ProjectDetailComponent`**. It covers:
  - the loading and error flags;
  - the related-projects filter;
  - the gallery index with wrap-around;
  - the category icon and the status label and badge classes.
- **`CvViewerComponent`**. It covers:
  - the dropdown and its click-outside listener;
  - the analytics log, capped at 100 entries;
  - the analytics summary;
  - the language modal, where "cancel" means English.
- **`ThemeService`**: the start-up theme, the toggle and the `data-theme` attribute.
- **`HomeComponent`**. It covers:
  - the typewriter that types and erases six roles in turn;
  - the contact links;
  - the loaders that fetch the CV viewer only once.

## How the model is built

- Modules follow the source files:
  - `generate_sitemap.dfy`, `sitemap_service.dfy`, `breadcrumb_service.dfy`, `meta_service.dfy`, `project_detail.dfy`, `cv_viewer.dfy`, `theme_service.dfy` and `home.dfy` model one source file each.
  - `sitemap_xml.dfy` holds the shared URL record, the XML serialiser and its decoder.
  - `content.dfy` holds the project and article records.
  - `text.dfy` holds the JavaScript string operations the code relies on: `||` on optional strings, `split`/`join`, the last path segment, and the date part before `T`.
  - `wrappers.dfy` holds `Option`.
- Parts of the source that update state in place are modelled as classes whose methods modify fields. These are the services' caches and tags, and the components' flags, indexes and logs. Pure derivations are modelled as functions, with lemmas about them.
- Inputs that come from outside the code become parameters:
  - HTTP responses;
  - the stored values in `localStorage`;
  - the system colour preference;
  - the answer of the modal dialog;
  - "today";
  - the router URL;
  - whether the app runs in a browser.

  The DOM effects become fields: the document title, the meta tags, the canonical link, the `data-theme` attribute, `body.style.overflow`, and the URLs passed to `window.open`.
- Each timer or `await` continuation becomes its own method step, run synchronously.
- Priorities are integer hundredths: 0.7 is 70.

## Model

| member | source | states |
|---|---|---|
| GenerateSitemap.ProjectPriority | scripts/generate-sitemap.js:165-174 | a project's priority lies between 0.70 and 0.90 |
| GenerateSitemap.CalculateProjectPriority | scripts/generate-sitemap.js:165-174 | the step-by-step `+=` accumulation ends at 70 + 20·featured + 10·completed + 5·Angular, capped at 90, so within [70, 90] |
| GenerateSitemap.ArticlePriority | scripts/generate-sitemap.js:176-185 | an article's priority lies between 0.60 and 0.80 |
| GenerateSitemap.CalculateArticlePriority | scripts/generate-sitemap.js:176-185 | the accumulation ends at 60 + 15·featured + 10·tutorial + 5·angular tag + 5·(non-zero readTime under 10), capped at 80 |
| GenerateSitemap.ProjectPriorityMonotone | scripts/generate-sitemap.js:168-173 | turning on any scoring flag of a project never lowers its priority |
| GenerateSitemap.ArticlePriorityMonotone | scripts/generate-sitemap.js:179-184 | turning on any scoring flag of an article never lowers its priority |
| GenerateSitemap.PriorityText | scripts/generate-sitemap.js:87 | `toFixed(1)` gives digit, point, digit, naming the tenth nearest the priority (halves up) |
| GenerateSitemap.PriorityTextMonotone | scripts/generate-sitemap.js:87 | a higher priority never prints as a lower tenth |
| GenerateSitemap.Latest | scripts/generate-sitemap.js:191-195 | the first date after the descending sort is one of the dates and no date is later |
| GenerateSitemap.LastUpdate | scripts/generate-sitemap.js:187-211 | today for an empty collection or when every effective date is empty; otherwise the date part of a newest effective date |
| GenerateSitemap.LastProjectUpdateIsNewest | scripts/generate-sitemap.js:187-198 | the `/projects` lastmod is today with no projects or when every `lastUpdated \|\| date` is empty, else the date part of the newest one |
| GenerateSitemap.ProjectDates | scripts/generate-sitemap.js:191-192 | one effective date per project, `lastUpdated` when set and non-empty, else `date` |
| GenerateSitemap.ArticleDates | scripts/generate-sitemap.js:204-205 | one effective date per article, chosen the same way |
| GenerateSitemap.ProjectImages | scripts/generate-sitemap.js:77-81 | one URL under `/assets/images/projects/{id}/` per listed image, in order; none when `images` is absent |
| GenerateSitemap.ProjectRecordFields | scripts/generate-sitemap.js:74-90 | a project record's loc is `/projects/{id}`, its changefreq weekly when featured else `quarterly`, its lastmod the date part of `lastUpdated \|\| date` (the longest `T`-free prefix), its priority the printed `calculateProjectPriority` score, one image per listed image |
| GenerateSitemap.ArticleRecordFields | scripts/generate-sitemap.js:93-107 | an article record's loc is `/articles/{slug}`, weekly when featured else monthly, its lastmod the date part of `lastUpdated \|\| date`, its priority the printed `calculateArticlePriority` score, and it has exactly one image when `image` is set and non-empty, none otherwise |
| GenerateSitemap.ProjectCaptionIsId | scripts/generate-sitemap.js:120 | the image caption's `split("/").pop()` of a project loc is the project id |
| GenerateSitemap.ArticleListImagesAsWritten | scripts/generate-sitemap.js:64-69 | as written: one URL per article among the first two, with `${a.image}` printing `undefined` when the image is missing |
| GenerateSitemap.ArticleListImagesAsWrittenListsUndefined | scripts/generate-sitemap.js:64-69 | an article without an image puts `.../articles/undefined` into the `/articles` record |
| GenerateSitemap.ArticleListImages | scripts/generate-sitemap.js:64-69 | corrected: as many URLs as the first two articles have images |
| GenerateSitemap.ArticleListImagesExact | scripts/generate-sitemap.js:64-69 | corrected: every URL is the image of one of the first two articles that has one, every such image is listed, and when all of them have one the list equals the list as written, in article order |
| GenerateSitemap.ArticleListImagesSkipsMissing | scripts/generate-sitemap.js:64-69 | corrected: an imageless article among the first two makes the list shorter than the one as written, and `.../articles/undefined` is listed only for an image file really named `undefined` |
| GenerateSitemap.StaticUrls | scripts/generate-sitemap.js:30-71 | exactly four fixed records; their fields are stated by `StaticUrlsFields` |
| GenerateSitemap.StaticUrlsFields | scripts/generate-sitemap.js:30-71 | root at "1.0" and `/home` at "0.9", dated today and without images; `/projects` at "0.9" with the first project's cover (first image or `preview.webp`), `/articles` at "0.8" with the first two articles' images (at most two); both dated by their collections' newest update; all weekly |
| GenerateSitemap.ProjectUrls | scripts/generate-sitemap.js:74-90 | one record per project, in input order |
| GenerateSitemap.ArticleUrls | scripts/generate-sitemap.js:93-107 | one record per article, in input order |
| GenerateSitemap.AllUrlsLayout | scripts/generate-sitemap.js:109 | the records are the four fixed ones, then one per project, then one per article, each in input order |
| GenerateSitemap.SitemapDocumentRoundTrip | scripts/generate-sitemap.js:109-140 | for inputs without `<`, reading the written document back yields exactly the record list |
| SitemapXml.ImagesRoundTrip | scripts/generate-sitemap.js:114-124 | the image entries read back as the image list, each caption naming the loc's last segment |
| SitemapXml.UrlRoundTrip | scripts/generate-sitemap.js:126-132 | one `<url>` element reads back as its record, and the text after it is left intact |
| SitemapXml.UrlsRoundTrip | scripts/generate-sitemap.js:111-134 | the joined `<url>` elements read back as the record list, in order |
| SitemapXml.DocumentRoundTrip | scripts/generate-sitemap.js:136-140 | head + elements + `</urlset>` decode to the records exactly |
| SitemapXml.UrlsXmlAppend | scripts/generate-sitemap.js:109-134 | serialising a concatenation of record lists is the concatenation of the serialisations |
| SitemapXml.Field | scripts/generate-sitemap.js:128-131 | the text content of an element is the longest prefix without `<`, and splitting there loses nothing |
| Text.Split | src/app/services/breadcrumb.service.ts:96 | `split` gives one more part than separators, no part holds the separator, and the first part is a prefix |
| Text.JoinSplit | src/app/services/breadcrumb.service.ts:96 | joining the parts of a split with the separator gives back the string |
| Text.SplitJoin | src/app/services/breadcrumb.service.ts:96 | splitting a join of separator-free parts gives back the parts |
| Text.SplitAround | src/app/services/breadcrumb.service.ts:96 | splitting `x + sep + y` is splitting `x`, then splitting `y` |
| Text.SplitWithoutSeparator | src/app/services/breadcrumb.service.ts:96 | a string without the separator splits into itself alone |
| Text.LastSegmentIsSuffix | scripts/generate-sitemap.js:120 | `split("/").pop()` is a slash-free suffix of the loc |
| Text.LastSegmentAfterSlash | scripts/generate-sitemap.js:120 | the last segment of `x + "/" + y` is `y` when `y` holds no slash |
| Text.DatePartIsLongestPrefix | scripts/generate-sitemap.js:85 | `split("T")[0]` is the longest prefix without `T` |
| Text.DatePartOfTimestamp | scripts/generate-sitemap.js:28 | the date part of an ISO timestamp `date + "T" + time` is `date` |
| Text.DatePartIdempotent | scripts/generate-sitemap.js:85 | taking the date part twice changes nothing |
| Text.LexLeTotal | scripts/generate-sitemap.js:193 | any two dates are ordered one way or the other |
| Text.LexLeTransitive | scripts/generate-sitemap.js:193 | the date order is transitive |
| Text.LexLeReflexive | scripts/generate-sitemap.js:193 | every date is ordered with itself |
| SitemapService.StaticUrls | src/app/services/sitemap.service.ts:29-37 | four records dated today, weekly, without images; the root at "1.0", the others at "0.9" |
| SitemapService.ProjectUrls | src/app/services/sitemap.service.ts:39-46 | one record per project, in order |
| SitemapService.ArticleUrls | src/app/services/sitemap.service.ts:48-55 | one record per article, in order |
| SitemapService.AllUrlsLayout | src/app/services/sitemap.service.ts:19-23 | static records, then projects, then articles |
| SitemapService.ProjectLastmod | src/app/services/sitemap.service.ts:41-44 | a project's lastmod follows `lastUpdated` when set and non-empty, else `date`; featured gives "0.8", otherwise "0.7" |
| SitemapService.ArticleIgnoresLastUpdated | src/app/services/sitemap.service.ts:51 | an article's record does not depend on `lastUpdated` |
| SitemapService.PrioritiesKnown | src/app/services/sitemap.service.ts:29-55 | every priority is 1.0, 0.9, 0.8 or 0.7, and only the root has 1.0 |
| SitemapService.BuildXmlSitemapRoundTrip | src/app/services/sitemap.service.ts:57-70 | `buildXmlSitemap` (`BuildXmlSitemap`): for `<`-free records the document decodes back to exactly those records, in order |
| SitemapService.DynamicSitemapRoundTrip | src/app/services/sitemap.service.ts:13-70 | for inputs without `<`, the service's document decodes to exactly its records |
| BreadcrumbService.Lookup | src/app/services/breadcrumb.service.ts:135-164 | the loaded cache's title wins, then the fixed table's own entry, then the generic label |
| BreadcrumbService.ProjectTitleCases | src/app/services/breadcrumb.service.ts:135-149 | `getProjectTitle` (`ProjectTitle`), corrected: the loaded cache's title, otherwise the table's own entry or "Proyecto", never empty |
| BreadcrumbService.ArticleTitleCases | src/app/services/breadcrumb.service.ts:152-164 | `getArticleTitle` (`ArticleTitle`), corrected: the loaded cache's title, otherwise the table's own entry or "Artículo", never empty |
| BreadcrumbService.ProjectTitleBeforeLoad | src/app/services/breadcrumb.service.ts:135-149 | corrected: before loading, a project's title is its table entry or "Proyecto", never empty |
| BreadcrumbService.ProjectTitleAsWrittenInheritsMember | src/app/services/breadcrumb.service.ts:141-148 | as written: the id `constructor` gets an inherited function from the object literal instead of a title |
| BreadcrumbService.ProjectTitleAgrees | src/app/services/breadcrumb.service.ts:135-148 | away from inherited member names, the lookup as written equals the corrected one |
| BreadcrumbService.ComputeBreadcrumbs | src/app/services/breadcrumb.service.ts:85-127 | the trail fits `TrailFor`: "Inicio" at `/home` first; a second crumb, "Proyectos" at `/projects` or "Artículos" at `/articles`, iff the route is under `/projects` or `/articles`; a third, titled from the cache chain, iff the route splits into more than two parts; only the last crumb can be active, and "Inicio" is active iff the route is `/` or `/home` |
| BreadcrumbService.TrailForUnique | src/app/services/breadcrumb.service.ts:85-127 | a route and a cache determine the trail: any two trails fitting `TrailFor` are equal, so the rules above say all there is |
| BreadcrumbService.ItemRouteOf | src/app/services/breadcrumb.service.ts:96-98 | `/{section}/{id}` is an item route whose third part is `id` |
| BreadcrumbService.StructuredData | src/app/services/breadcrumb.service.ts:166-176 | one ListItem per crumb, positions 1..n in order, name the crumb's text, item the site URL followed by the crumb's URL |
| BreadcrumbService.FillFacts | src/app/services/breadcrumb.service.ts:63-72 | after `forEach(set)` the keys are the old ones plus the listed ones, each listed key holds its last entry's title, unlisted keys keep theirs |
| BreadcrumbService.FillDistinct | src/app/services/breadcrumb.service.ts:63-72 | with distinct keys every entry's key maps to its own title |
| BreadcrumbService.BreadcrumbServiceState.constructor | src/app/services/breadcrumb.service.ts:34-41 | the service starts empty and loads its cache; after a successful load the trail is the one for the route, after a failed one it is still empty |
| BreadcrumbService.BreadcrumbServiceState.BuildBreadcrumbs | src/app/services/breadcrumb.service.ts:85-132 | publishes the trail `TrailFor` the route and the current cache, and its JSON-LD, caches untouched |
| BreadcrumbService.BreadcrumbServiceState.LoadCache | src/app/services/breadcrumb.service.ts:54-83 | the two loops fill the caches entry by entry, mark them loaded and rebuild the trail for the route from the filled caches; on failure nothing changes |
| BreadcrumbService.BreadcrumbServiceState.RefreshCache | src/app/services/breadcrumb.service.ts:192-197 | clears both caches and the flag, then loads afresh, rebuilding the trail on success; on failure the caches stay empty and the published trail is kept unchanged |
| BreadcrumbService.BreadcrumbServiceState.PreloadProjectTitle | src/app/services/breadcrumb.service.ts:200-208 | nothing for a cached id; otherwise the fetched title under the fetched id, or "Proyecto" under the id on failure; no key is lost |
| MetaService.ResolveImage | src/app/services/meta.service.ts:50 | an image starting with `http` is kept, anything else is prefixed with the site URL |
| MetaService.ResolveImageIdempotent | src/app/services/meta.service.ts:50 | a resolved image starts with `http`, so resolving twice changes nothing |
| MetaService.CanonicalUrl | src/app/services/meta.service.ts:80 | the custom canonical when set and non-empty, else the site URL plus the route |
| MetaService.RobotsContent | src/app/services/meta.service.ts:72-76 | "noindex, nofollow" exactly when `noindex` is true |
| MetaService.MetaTags | src/app/services/meta.service.ts:28-77 | descriptions, titles, og:url and robots always written; keywords iff given; the four image tags iff an image is given, with the resolved URL and 1200×630; the constant tags are stated by `MetaTagsFixed` |
| MetaService.MetaTagsFixed | src/app/services/meta.service.ts:34-57 | author, og:site_name, twitter:card ("summary_large_image"), twitter:creator and twitter:site are always written with their constants |
| MetaService.WrittenTags | src/app/services/meta.service.ts:32-76 | the writes in source order replace exactly the tags of `MetaTags` and keep every other tag |
| MetaService.HomePageTags | src/app/services/meta.service.ts:93-101 | `generateHomeMeta` (`HomeMeta`): on the home page og:url is the site itself and og:image the home image, on every route |
| MetaService.ProjectsPageTags | src/app/services/meta.service.ts:103-111 | `generateProjectsPageMeta` (`ProjectsPageMeta`): the projects listing names `/projects` as og:url and the default projects image as og:image, on every route |
| MetaService.ArticlesPageTags | src/app/services/meta.service.ts:113-121 | `generateArticlesPageMeta` (`ArticlesPageMeta`): the articles listing names `/articles` as og:url and the default articles image as og:image, on every route |
| MetaService.ProjectPageTags | src/app/services/meta.service.ts:123-131 | `generateProjectMeta` (`ProjectMeta`): a project page names its own URL whatever the route, shows its first image or the default unchanged, and allows indexing |
| MetaService.ArticlePageTags | src/app/services/meta.service.ts:133-141 | `generateArticleMeta` (`ArticleMeta`): an article page names its own URL and image; its description is the first set of description, summary and the template |
| MetaService.MetaState.UpdateCanonical | src/app/services/meta.service.ts:79-91 | the single canonical link names the canonical URL |
| MetaService.MetaState.UpdateMeta | src/app/services/meta.service.ts:28-77 | sets the title, overlays the written tags on the old ones, and the canonical link equals og:url |
| ProjectDetail.JsRem | src/app/components/project-detail/project-detail.component.ts:133 | JavaScript `%`: in range for non-negative operands, the sign of the dividend otherwise |
| ProjectDetail.NextIndex | src/app/components/project-detail/project-detail.component.ts:131-134 | from an image in range, the next index is in range: one more, or 0 after the last |
| ProjectDetail.PreviousIndex | src/app/components/project-detail/project-detail.component.ts:136-141 | one less, or the last index from 0 |
| ProjectDetail.PreviousUndoesNext | src/app/components/project-detail/project-detail.component.ts:131-141 | within the gallery, previous undoes next and next undoes previous |
| ProjectDetail.AdvanceWraps | src/app/components/project-detail/project-detail.component.ts:131-134 | `n` nexts move `n` places, wrapping once, for `n` up to the gallery size |
| ProjectDetail.FullRound | src/app/components/project-detail/project-detail.component.ts:131-134 | as many nexts as images return to the start |
| ProjectDetail.RelatedFilter | src/app/components/project-detail/project-detail.component.ts:92-93 | exactly the other projects of the same category, in input order, each as often as in the input |
| ProjectDetail.RelatedProjects | src/app/components/project-detail/project-detail.component.ts:92-94 | at most three, none the current project, all of its category, in input order, and the first min(3, matches) of them |
| ProjectDetail.PrefixIsSubsequence | src/app/components/project-detail/project-detail.component.ts:94 | `slice(0, 3)` of an order-keeping selection still keeps order |
| ProjectDetail.CategoryIcon | src/app/components/project-detail/project-detail.component.ts:143-153 | the icon of the lower-cased category, or the briefcase |
| ProjectDetail.CategoryIconIgnoresCase | src/app/components/project-detail/project-detail.component.ts:152 | letter case does not change the icon |
| ProjectDetail.StatusText | src/app/components/project-detail/project-detail.component.ts:155-163 | the Spanish label of a known status, the status itself otherwise |
| ProjectDetail.StatusClasses | src/app/components/project-detail/project-detail.component.ts:165-173 | the badge classes followed by the status colours, grey when unknown |
| ProjectDetail.PrivacyClasses | src/app/components/project-detail/project-detail.component.ts:175-182 | the badge classes followed by the privacy colours, grey when unknown |
| ProjectDetail.ProjectDetailComponent.constructor | src/app/components/project-detail/project-detail.component.ts:17-34 | no project, loading, no error, gallery closed at 0 |
| ProjectDetail.ProjectDetailComponent.LoadProjectAsWritten | src/app/components/project-detail/project-detail.component.ts:63-113 | success shows the project and clears `error`, but the SEO call throws, so `loading` stays raised and the related projects are unchanged; failure raises `error`, keeps the project and ends `loading` |
| ProjectDetail.ProjectDetailComponent.LoadProject | src/app/components/project-detail/project-detail.component.ts:63-113 | with the SEO update sent to `updateMetadata`: success shows the project; with `technologies` present the related projects follow (kept if their fetch fails) and `loading` ends false, without them the SEO call throws and `loading` stays raised; failure raises `error`, keeps the project and ends `loading` |
| ProjectDetail.LoadingNeverEndsAsWritten | src/app/components/project-detail/project-detail.component.ts:70-75 | as written, a fresh component given any fetched project stays loading with no related projects |
| ProjectDetail.LoadingEnds | src/app/components/project-detail/project-detail.component.ts:70-75 | corrected, a fresh component stops loading exactly when the project has `technologies`, and then shows its related projects if the list was fetched |
| ProjectDetail.ProjectDetailComponent.OpenGallery | src/app/components/project-detail/project-detail.component.ts:115-121 | with a gallery in a browser: opens at the given index and locks scrolling; otherwise nothing |
| ProjectDetail.ProjectDetailComponent.CloseGallery | src/app/components/project-detail/project-detail.component.ts:123-129 | in a browser: closes, rewinds to 0, unlocks scrolling |
| ProjectDetail.ProjectDetailComponent.NextImage | src/app/components/project-detail/project-detail.component.ts:131-134 | with a gallery the index becomes `NextIndex`; without one nothing changes |
| ProjectDetail.ProjectDetailComponent.PreviousImage | src/app/components/project-detail/project-detail.component.ts:136-141 | with a gallery the index becomes `PreviousIndex`; without one nothing changes |
| CvViewer.CappedLog | src/app/components/cv-viewer/cv-viewer.component.ts:346-359 | the new log has min(old+1, 100) entries, ends with the new entry, and is a suffix of old + entry (the oldest dropped) |
| CvViewer.CappedLogWithinCapacity | src/app/components/cv-viewer/cv-viewer.component.ts:350-354 | below capacity the entry is simply appended; at capacity the oldest entry goes |
| CvViewer.CappedLogStaysBounded | src/app/components/cv-viewer/cv-viewer.component.ts:350-354 | any sequence of saves keeps the log within 100 entries, last saved last |
| CvViewer.CountOf | src/app/components/cv-viewer/cv-viewer.component.ts:396-402 | an action/language count never exceeds the log length |
| CvViewer.CountLang | src/app/components/cv-viewer/cv-viewer.component.ts:411-412 | a language count never exceeds the log length |
| CvViewer.CountsPartition | src/app/components/cv-viewer/cv-viewer.component.ts:391-408 | over entries with the enum values the four counts sum to the log length, and each language's count splits by action |
| CvViewer.MostPopular | src/app/components/cv-viewer/cv-viewer.component.ts:410-417 | 'es' iff strictly more Spanish entries, 'en' iff strictly more English, 'equal' iff tied |
| CvViewer.SummaryAddsUp | src/app/components/cv-viewer/cv-viewer.component.ts:391-408 | `getAnalyticsSummary` (`AnalyticsSummary`): the four counts add up to the total; mostPopular is 'es' or 'en' iff that language's downloads plus views are strictly more, and "equal" iff they tie |
| CvViewer.LanguageSelection | src/app/components/cv-viewer/cv-viewer.component.ts:191-196 | dismissing with cancel is a confirmed 'en'; confirming keeps its value; other dismissals are unconfirmed |
| CvViewer.ViewedLanguage | src/app/components/cv-viewer/cv-viewer.component.ts:156-160 | the CV opened is one of the two languages, or none |
| CvViewer.ViewedLanguageCases | src/app/components/cv-viewer/cv-viewer.component.ts:152-197 | cancel opens English, confirm opens Spanish, other dismissals open nothing |
| CvViewer.CvViewerComponent.constructor | src/app/components/cv-viewer/cv-viewer.component.ts:84-103 | closed dropdown, no listener |
| CvViewer.CvViewerComponent.ToggleDropdown | src/app/components/cv-viewer/cv-viewer.component.ts:118-126 | flips the dropdown; the listener is registered iff it is now open |
| CvViewer.CvViewerComponent.SetupClickOutsideListener | src/app/components/cv-viewer/cv-viewer.component.ts:301-310 | the listener is registered |
| CvViewer.CvViewerComponent.RemoveClickOutsideListener | src/app/components/cv-viewer/cv-viewer.component.ts:312-317 | the listener is cleared |
| CvViewer.CvViewerComponent.CloseDropdown | src/app/components/cv-viewer/cv-viewer.component.ts:128-131 | closed and no listener, from any state |
| CvViewer.CvViewerComponent.SaveToLocalStorage | src/app/components/cv-viewer/cv-viewer.component.ts:346-359 | the `push` and `splice` leave the stored log equal to `CappedLog` |
| CvViewer.CvViewerComponent.SelectCV | src/app/components/cv-viewer/cv-viewer.component.ts:133-150 | logs a download of the chosen language and closes the dropdown |
| CvViewer.CvViewerComponent.ViewOnline | src/app/components/cv-viewer/cv-viewer.component.ts:152-166 | closes the dropdown and logs a view of the language the modal settled on, if any |
| ThemeService.InitialTheme | src/app/services/theme.service.ts:25-30 | a non-empty saved value wins; otherwise 'dark' iff the system prefers dark |
| ThemeService.Toggled | src/app/services/theme.service.ts:65 | 'dark' iff the theme was 'light'; always one of the two |
| ThemeService.ToggleTwice | src/app/services/theme.service.ts:64-65 | from 'light' or 'dark' two toggles change nothing |
| ThemeService.DataThemeFor | src/app/services/theme.service.ts:45-56 | the attribute is present, as "dark", iff the theme is 'dark' |
| ThemeService.ThemeService.constructor | src/app/services/theme.service.ts:18-33 | the initial theme is applied: the attribute matches it |
| ThemeService.ThemeService.ApplyTheme | src/app/services/theme.service.ts:74-87 | sets or removes the attribute for the theme, nothing else |
| ThemeService.ThemeService.ToggleTheme | src/app/services/theme.service.ts:64-72 | switches the theme, applies it and persists it |
| ThemeService.ThemeService.GetTheme | src/app/services/theme.service.ts:89-91 | returns the current theme and changes nothing |
| Home.NextRole | src/app/components/home/home.component.ts:581 | the next role index stays in range: one more, or 0 after the last |
| Home.RotateWraps | src/app/components/home/home.component.ts:581 | `n` rotations move `n` places, wrapping once |
| Home.SixRotations | src/app/components/home/home.component.ts:111-119 | six rotations return to the starting role |
| Home.RemoveWhitespace | src/app/components/home/home.component.ts:659 | no whitespace remains, text without whitespace is unchanged, and a single character is dropped exactly when it is whitespace; with the append law this pins the function down |
| Home.RemoveWhitespaceAppend | src/app/components/home/home.component.ts:659 | removal works piece by piece, so the kept characters stay in order |
| Home.FirstIndex | src/app/components/home/home.component.ts:662 | the position of the first occurrence |
| Home.RemoveFirst | src/app/components/home/home.component.ts:662 | `replace('@', '')` drops only the first '@' and keeps a string without one |
| Home.RemoveFirstLeading | src/app/components/home/home.component.ts:662 | a leading '@' alone is dropped from a handle |
| Home.ContactUrl | src/app/components/home/home.component.ts:653-666 | mailto:, wa.me without whitespace, t.me without the first '@', https:// for linkedin; nothing for other types |
| Home.HomeComponent.constructor | src/app/components/home/home.component.ts:119-122 | the typewriter at role 0 with empty text; viewer not loaded, no loader, no preload |
| Home.HomeComponent.StartTypewriter | src/app/components/home/home.component.ts:553-554 | the typewriter runs only in a browser |
| Home.HomeComponent.Tick | src/app/components/home/home.component.ts:556-587 | typing shows the role's prefix of length `index` for 0..len, and past the end erasing starts from the full length with the text unchanged; erasing shows shorter prefixes down to empty, then moves to `NextRole` of the index and types from 0; in every other step the role index is unchanged |
| Home.HomeComponent.OpenContact | src/app/components/home/home.component.ts:650-667 | in a browser opens `ContactUrl` of a known type; otherwise nothing |
| Home.HomeComponent.LoadCVViewer | src/app/components/home/home.component.ts:670-680 | no change when loaded or loading; otherwise the loader shows |
| Home.HomeComponent.OnCVImportSettled | src/app/components/home/home.component.ts:681-704 | the loader hides; loaded iff the import succeeded (or was already); the fallback on failure |
| Home.HomeComponent.PreloadCVViewer | src/app/components/home/home.component.ts:708-713 | no change when loaded or preloading; otherwise a preload starts |
| Home.HomeComponent.OnPreloadSettled | src/app/components/home/home.component.ts:715-730 | the preload flag clears; loaded iff the import succeeded (or was already) |

## Left out

- File writes, directory creation and the sitemap index file of the build script are not modelled (I/O). The same goes for HTTP, `localStorage` access, `gtag`/Vercel analytics, `console` output, SweetAlert2 dialogs, script/link element injection, `window.open`, `Renderer2`, and Angular's `Meta`/`Title`. Each is an input or a field.
- Timers, `requestAnimationFrame`, RxJS plumbing and dynamic `import()` are run as synchronous steps. Interleavings are not modelled.
- GenerateSitemap.PriorityText: rounds exact hundredths half up. JavaScript adds the scores as doubles, and `0.7 + 0.1 + 0.05` prints as "0.8" with `toFixed(1)` where the model prints "0.9". Floating point is not modelled.
- GenerateSitemap.PriorityText: defined only for 0..100 hundredths. Every score lies inside that range.
- GenerateSitemap.LastUpdate: the sort by `new Date(...)` is modelled as lexicographic order of ISO date strings. Date parsing and time zones are not modelled.
- GenerateSitemap.ProjectRecordFields: `quarterly` is kept as written, although it is not a sitemap 0.9 changefreq value. No field is XML-escaped, so the round-trip lemmas require text without `<`.
- GenerateSitemap.StaticUrls: the `/articles` record is built from the corrected image list (`ArticleListImages`), so `AllUrls`, `SitemapDocument` and `SitemapDocumentRoundTrip` describe the corrected script. As written, lines 64-69 also emit `.../articles/undefined` for each imageless article among the first two (`ArticleListImagesAsWritten`); the two lists agree whenever both articles have an image (`ArticleListImagesExact`).
- The `generateSitemapIndex` existence check (`scripts/generate-sitemap.js:230`) has no effect and is pure I/O.
- BreadcrumbService.BreadcrumbServiceState.LoadCache: on failure, RxJS emits the two empty fallback arrays one by one. Destructuring `[]` binds `projects` to `undefined`, so `projects.forEach` (`src/app/services/breadcrumb.service.ts:65`) throws before any write. The model therefore changes nothing on failure.
- ProjectDetail.CategoryIcon: `toLowerCase` is modelled for ASCII letters only, and only the table's own keys are read. The object-literal prototype issue described under Findings applies here as well.
- ProjectDetail.StatusText: only the label table's own keys are read; a status such as "constructor" would find an inherited `Object.prototype` member in the source.
- ProjectDetail.StatusClasses: only the colour table's own keys are read; inherited `Object.prototype` members are not modelled.
- ProjectDetail.PrivacyClasses: only the colour table's own keys are read; inherited `Object.prototype` members are not modelled.
- ProjectDetail.ProjectDetailComponent.LoadProject: models the corrected component (see Findings); what `updateSEOMetadata` sends to the metadata service is not modelled, only its throw on a project without `technologies`, which leaves `loading` raised. The component has no route in `src/app/app.routes.ts`, so nothing in the application as written reaches it. Route subscription, `scrollToTop`, `ngOnDestroy`, `goBack`, `onImageError` and `trackByFn` are not modelled (DOM and router only).
- ProjectDetail.ProjectDetailComponent.OpenGallery: the index is not checked, as in the source. The range lemmas hold for indexes within the gallery only.
- CvViewer.CvViewerComponent.SaveToLocalStorage: a stored value that fails to parse makes the source skip the save. That path is not modelled: the stored log is always a list.
- CvViewer: the pulse animation, the PDF modal buttons (print, fullscreen) and the download link are DOM only.
- ThemeService: the `no-transition` class toggling is timing only.
- Home: particles, the tech-orbit trigonometry, the scroll animations and the skills data are left out (floating point, randomness and DOM). `loadCVViewer`'s 500 ms minimum delay is timing only.

## Findings

| source | as written | input that shows it | evidently intended | confidence | as-written member | corrected member |
|---|---|---|---|---|---|---|
| scripts/generate-sitemap.js:64-69 | the `/articles` record maps the first two articles to `${baseUrl}/assets/images/articles/${a.image}` with no check that `image` is set | an articles list whose first entry has no `image` | skip articles without an image, as the per-article records do at lines 96-98 | not executed; high | GenerateSitemap.ArticleListImagesAsWrittenListsUndefined | GenerateSitemap.ArticleListImagesSkipsMissing |
| src/app/services/breadcrumb.service.ts:141-148 | `fallbackTitles[projectId] \|\| 'Proyecto'` indexes a plain object literal, so inherited `Object.prototype` members are found too | the route `/projects/constructor` before the cache has loaded | use the table's own entries only, else "Proyecto" | not executed; high | BreadcrumbService.ProjectTitleAsWrittenInheritsMember | BreadcrumbService.ProjectTitleBeforeLoad |
| src/app/components/project-detail/project-detail.component.ts:103 | `updateSEOMetadata` calls `this.metadataService.updatePageMetadata(...)`, but `MetadataService` (`src/app/services/metadata.service.ts:7-15`) defines only `updateMetadata`, so the call throws `TypeError` once its argument is built | any successfully fetched project | send the metadata through the service's own method, so that lines 74-75 load the related projects and end `loading` | not executed; high | ProjectDetail.LoadingNeverEndsAsWritten | ProjectDetail.LoadingEnds |

In the first row, the sitemap lists the image URL `.../articles/undefined`. In the second row, the third crumb's label becomes the `Object` constructor function instead of a string. `getArticleTitle` at lines 158-163 has the same shape. In the third row, the project page stays in its loading state and never lists related projects. The component is not routed in `src/app/app.routes.ts`, and the file would also fail TypeScript's type check (`updatePageMetadata` is not on `MetadataService`; `gallery` and `lastUpdated` are not on `Project` in `src/app/models/project.model.ts`), so the row reads the JavaScript semantics of unrouted code that is never reached. The model uses the corrected lookup for both titles.

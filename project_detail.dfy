/**
 * `ProjectDetailComponent`
 * (`src/app/components/project-detail/project-detail.component.ts`): the
 * load flags, the related-projects list, the image gallery's index and
 * open state, and the status and category labels.
 *
 * HTTP responses are inputs; `document.body.style.overflow` is the
 * `bodyOverflow` field; the SEO metadata call is not modelled.
 */
module ProjectDetail {
  import opened Wrappers
  import opened Content

  // ---------------------------------------------------------------------
  // Gallery navigation

  /** JavaScript's `a % n` for `n > 0`: the remainder takes the sign of `a`. */
  function JsRem(a: int, n: int): (r: int)
    requires n > 0
    ensures 0 <= a < n ==> r == a
    ensures a == n ==> r == 0
    ensures a >= 0 ==> 0 <= r < n
    ensures a < 0 ==> -n < r <= 0
  {
    if 0 <= a < n then a
    else if a == n then 0
    else if a >= 0 then a % n
    else -((-a) % n)
  }

  /** `nextImage`: one step forward, wrapping from the last image to the first. */
  function NextIndex(index: int, length: int): (next: int)
    requires length > 0
    ensures 0 <= index < length ==> 0 <= next < length
    ensures 0 <= index < length - 1 ==> next == index + 1
    ensures index == length - 1 ==> next == 0
  {
    JsRem(index + 1, length)
  }

  /** `previousImage`: one step back, wrapping from the first image to the last. */
  function PreviousIndex(index: int, length: int): (previous: int)
    requires length > 0
    ensures 0 <= index < length ==> 0 <= previous < length
    ensures index == 0 ==> previous == length - 1
    ensures index != 0 ==> previous == index - 1
  {
    if index == 0 then length - 1 else index - 1
  }

  /** Within the gallery, stepping back undoes stepping forward and vice versa. */
  lemma PreviousUndoesNext(index: int, length: int)
    requires 0 <= index < length
    ensures PreviousIndex(NextIndex(index, length), length) == index
    ensures NextIndex(PreviousIndex(index, length), length) == index
  {
  }

  /** `n` steps forward from `index`. */
  function Advance(index: int, length: int, n: nat): int
    requires length > 0
  {
    if n == 0 then index else NextIndex(Advance(index, length, n - 1), length)
  }

  /** Up to a full round, stepping forward `n` times from an image moves `n` places, wrapping once. */
  lemma {:induction false} AdvanceWraps(index: int, length: int, n: nat)
    requires 0 <= index < length && n <= length
    ensures Advance(index, length, n) == if index + n < length then index + n else index + n - length
  {
    if n > 0 {
      AdvanceWraps(index, length, n - 1);
    }
  }

  /** A full round of `nextImage` returns to the image it started from. */
  lemma FullRound(index: int, length: int)
    requires 0 <= index < length
    ensures Advance(index, length, length) == index
  {
    AdvanceWraps(index, length, length);
  }

  // ---------------------------------------------------------------------
  // Related projects

  predicate IsRelated(current: Project, p: Project)
  {
    p.id != current.id && p.category == current.category
  }

  /** `xs` is `ys` with some elements removed, order kept. */
  predicate IsSubsequence<T(==)>(xs: seq<T>, ys: seq<T>)
  {
    if xs == [] then true
    else if ys == [] then false
    else if xs[0] == ys[0] then IsSubsequence(xs[1..], ys[1..])
    else IsSubsequence(xs, ys[1..])
  }

  /** `projects.filter(p => related)`: all related projects, in input order. */
  function RelatedFilter(current: Project, projects: seq<Project>): (r: seq<Project>)
    ensures forall i :: 0 <= i < |r| ==> IsRelated(current, r[i]) && r[i] in projects
    ensures forall i :: 0 <= i < |projects| && IsRelated(current, projects[i]) ==> projects[i] in r
    ensures IsSubsequence(r, projects)
    ensures forall p :: multiset(r)[p] == if IsRelated(current, p) then multiset(projects)[p] else 0
  {
    if projects == [] then []
    else
      var rest := RelatedFilter(current, projects[1..]);
      assert forall i :: 1 <= i < |projects| ==> projects[i] == projects[1..][i - 1];
      assert projects == [projects[0]] + projects[1..];
      if IsRelated(current, projects[0]) then [projects[0]] + rest else rest
  }

  lemma {:induction false} PrefixIsSubsequence<T>(xs: seq<T>, ys: seq<T>, n: nat)
    requires IsSubsequence(xs, ys) && n <= |xs|
    ensures IsSubsequence(xs[..n], ys)
  {
    if n > 0 && ys != [] {
      if xs[0] == ys[0] {
        PrefixIsSubsequence(xs[1..], ys[1..], n - 1);
        assert xs[..n][1..] == xs[1..][..n - 1];
      } else {
        PrefixIsSubsequence(xs, ys[1..], n);
      }
    }
  }

  /**
   * `loadRelatedProjects`: the first three related projects. None is the
   * current project, all share its category, and they keep input order.
   */
  function RelatedProjects(current: Project, projects: seq<Project>): (r: seq<Project>)
    ensures |r| <= 3
    ensures forall i :: 0 <= i < |r| ==> r[i].id != current.id && r[i].category == current.category
    ensures IsSubsequence(r, projects)
    ensures r <= RelatedFilter(current, projects)
    ensures |r| == if |RelatedFilter(current, projects)| < 3 then |RelatedFilter(current, projects)| else 3
  {
    var all := RelatedFilter(current, projects);
    if |all| <= 3 then all
    else
      PrefixIsSubsequence(all, projects, 3);
      all[..3]
  }

  // ---------------------------------------------------------------------
  // Labels

  function ToLowerAscii(s: string): (r: string)
    ensures |r| == |s|
    ensures forall i :: 0 <= i < |s| ==> r[i] == if 'A' <= s[i] <= 'Z' then (s[i] as int + 32) as char else s[i]
  {
    if s == [] then []
    else [if 'A' <= s[0] <= 'Z' then (s[0] as int + 32) as char else s[0]] + ToLowerAscii(s[1..])
  }

  const CategoryIcons: map<string, string> := map[
    "web" := "🌐", "fullstack" := "⚡", "frontend" := "🎨",
    "backend" := "⚙️", "mobile" := "📱", "desktop" := "💻"
  ]
  const DefaultIcon := "💼"

  /** `getCategoryIcon`: the icon of the lower-cased category, or the briefcase. */
  function CategoryIcon(category: string): (icon: string)
    ensures ToLowerAscii(category) in CategoryIcons ==> icon == CategoryIcons[ToLowerAscii(category)]
    ensures ToLowerAscii(category) !in CategoryIcons ==> icon == DefaultIcon
  {
    var key := ToLowerAscii(category);
    if key in CategoryIcons then CategoryIcons[key] else DefaultIcon
  }

  /** The icon does not depend on letter case. */
  lemma CategoryIconIgnoresCase(category: string)
    ensures CategoryIcon(ToLowerAscii(category)) == CategoryIcon(category)
  {
    var lower := ToLowerAscii(category);
    assert ToLowerAscii(lower) == lower;
  }

  const StatusLabels: map<string, string> := map[
    "completed" := "Completado", "in-progress" := "En desarrollo",
    "planned" := "Planificado", "maintenance" := "En mantenimiento"
  ]

  /** `getStatusText`: the Spanish label of a known status; an unknown status is shown as it is. */
  function StatusText(status: string): (text: string)
    ensures status in StatusLabels ==> text == StatusLabels[status]
    ensures status !in StatusLabels ==> text == status
  {
    if status in StatusLabels then StatusLabels[status] else status
  }

  const StatusBaseClasses := "inline-flex items-center px-3 py-1 rounded-full text-sm font-medium "
  const StatusColours: map<string, string> := map[
    "completed" := "bg-green-100 text-green-800 dark:bg-green-900/30 dark:text-green-300",
    "in-progress" := "bg-blue-100 text-blue-800 dark:bg-blue-900/30 dark:text-blue-300",
    "planned" := "bg-yellow-100 text-yellow-800 dark:bg-yellow-900/30 dark:text-yellow-300",
    "maintenance" := "bg-purple-100 text-purple-800 dark:bg-purple-900/30 dark:text-purple-300"
  ]
  const DefaultColours := "bg-gray-100 text-gray-800"

  /** `getStatusClasses`: the badge classes followed by the status colours, grey when unknown. */
  function StatusClasses(status: string): (classes: string)
    ensures StatusBaseClasses <= classes
    ensures classes[|StatusBaseClasses|..] == if status in StatusColours then StatusColours[status] else DefaultColours
  {
    StatusBaseClasses + (if status in StatusColours then StatusColours[status] else DefaultColours)
  }

  const PrivacyColours: map<string, string> := map[
    "public" := "bg-emerald-100 text-emerald-800 dark:bg-emerald-900/30 dark:text-emerald-300",
    "internal" := "bg-blue-100 text-blue-800 dark:bg-blue-900/30 dark:text-blue-300",
    "private" := "bg-red-100 text-red-800 dark:bg-red-900/30 dark:text-red-300"
  ]

  /** `getPrivacyClasses`: the same badge, coloured by privacy level, grey when unknown. */
  function PrivacyClasses(privacy: string): (classes: string)
    ensures StatusBaseClasses <= classes
    ensures classes[|StatusBaseClasses|..] == if privacy in PrivacyColours then PrivacyColours[privacy] else DefaultColours
  {
    StatusBaseClasses + (if privacy in PrivacyColours then PrivacyColours[privacy] else DefaultColours)
  }

  // ---------------------------------------------------------------------
  // The component

  /** The answer to the project request: the project, or an HTTP error. */
  datatype Fetch<T> = Fetched(value: T) | FetchFailed

  /** `project?.gallery?.length` is non-zero. */
  predicate HasGallery(project: Option<Project>)
  {
    project.Some? && project.value.gallery.Some? && |project.value.gallery.value| > 0
  }

  function GalleryLength(project: Option<Project>): int
    requires HasGallery(project)
  {
    |project.value.gallery.value|
  }

  class ProjectDetailComponent {
    var project: Option<Project>
    var relatedProjects: seq<Project>
    var loading: bool
    var error: bool
    var currentGalleryIndex: int
    var isGalleryOpen: bool
    var bodyOverflow: Option<string>
    const isBrowser: bool

    constructor(isBrowser: bool)
      ensures this.isBrowser == isBrowser
      ensures project == None && relatedProjects == [] && loading && !error
      ensures currentGalleryIndex == 0 && !isGalleryOpen && bodyOverflow == None
    {
      this.isBrowser := isBrowser;
      project := None;
      relatedProjects := [];
      loading := true;
      error := false;
      currentGalleryIndex := 0;
      isGalleryOpen := false;
      bodyOverflow := None;
    }

    /**
     * `loadProject` as written: raises `loading` and clears `error`; on
     * success shows the project, but `updateSEOMetadata` then calls
     * `updatePageMetadata`, which the metadata service does not define, so
     * the callback throws (earlier still, on `technologies.join`, when the
     * project has no `technologies`). The related list is never fetched and
     * `loading` stays raised. On failure raises `error` and ends `loading`.
     */
    method LoadProjectAsWritten(fetched: Fetch<Project>, all: Fetch<seq<Project>>)
      modifies this
      ensures fetched.Fetched? ==> project == Some(fetched.value) && !error
                                   && loading && relatedProjects == old(relatedProjects)
      ensures fetched.FetchFailed? ==> !loading && error && project == old(project) && relatedProjects == old(relatedProjects)
      ensures currentGalleryIndex == old(currentGalleryIndex) && isGalleryOpen == old(isGalleryOpen)
      ensures bodyOverflow == old(bodyOverflow)
    {
      loading := true;
      error := false;
      match fetched {
        case Fetched(p) =>
          project := Some(p);
        case FetchFailed =>
          error := true;
          loading := false;
      }
    }

    /**
     * `loadProject` with the SEO update sent to the service's own
     * `updateMetadata`: on success shows the project and its related
     * projects (kept when the list cannot be fetched), on failure raises
     * `error`; either way `loading` ends false. A fetched project without
     * `technologies` still makes the SEO update throw on
     * `technologies.join` while its argument is built, so the related list
     * is not fetched and `loading` stays raised.
     */
    method LoadProject(fetched: Fetch<Project>, all: Fetch<seq<Project>>)
      modifies this
      ensures fetched.Fetched? ==> project == Some(fetched.value) && !error
      ensures fetched.Fetched? && fetched.value.technologies.Some? ==>
                && !loading
                && relatedProjects == (if all.Fetched? then RelatedProjects(fetched.value, all.value)
                                       else old(relatedProjects))
      ensures fetched.Fetched? && fetched.value.technologies.None? ==>
                loading && relatedProjects == old(relatedProjects)
      ensures fetched.FetchFailed? ==> !loading && error && project == old(project) && relatedProjects == old(relatedProjects)
      ensures currentGalleryIndex == old(currentGalleryIndex) && isGalleryOpen == old(isGalleryOpen)
      ensures bodyOverflow == old(bodyOverflow)
    {
      loading := true;
      error := false;
      match fetched {
        case Fetched(p) =>
          project := Some(p);
          if p.technologies.None? {
            return;
          }
          if all.Fetched? {
            relatedProjects := RelatedProjects(p, all.value);
          }
          loading := false;
        case FetchFailed =>
          error := true;
          loading := false;
      }
    }

    /** `openGallery`: in a browser and with a gallery, shows image `index` (unchecked) and locks scrolling. */
    method OpenGallery(index: int)
      modifies this
      ensures !HasGallery(project) || !isBrowser ==>
                currentGalleryIndex == old(currentGalleryIndex) && isGalleryOpen == old(isGalleryOpen)
                && bodyOverflow == old(bodyOverflow)
      ensures HasGallery(project) && isBrowser ==>
                currentGalleryIndex == index && isGalleryOpen && bodyOverflow == Some("hidden")
      ensures project == old(project) && loading == old(loading) && error == old(error)
      ensures relatedProjects == old(relatedProjects)
    {
      if !HasGallery(project) || !isBrowser {
        return;
      }
      currentGalleryIndex := index;
      isGalleryOpen := true;
      bodyOverflow := Some("hidden");
    }

    /** `closeGallery`: in a browser, hides the gallery, rewinds it and unlocks scrolling. */
    method CloseGallery()
      modifies this
      ensures !isBrowser ==> currentGalleryIndex == old(currentGalleryIndex) && isGalleryOpen == old(isGalleryOpen)
                             && bodyOverflow == old(bodyOverflow)
      ensures isBrowser ==> !isGalleryOpen && currentGalleryIndex == 0 && bodyOverflow == Some("auto")
      ensures project == old(project) && loading == old(loading) && error == old(error)
      ensures relatedProjects == old(relatedProjects)
    {
      if !isBrowser {
        return;
      }
      isGalleryOpen := false;
      currentGalleryIndex := 0;
      bodyOverflow := Some("auto");
    }

    /** `nextImage`: nothing without a gallery, otherwise one step forward with wrap-around. */
    method NextImage()
      modifies this
      ensures !HasGallery(project) ==> currentGalleryIndex == old(currentGalleryIndex)
      ensures HasGallery(project) ==> currentGalleryIndex == NextIndex(old(currentGalleryIndex), GalleryLength(project))
      ensures project == old(project) && isGalleryOpen == old(isGalleryOpen) && bodyOverflow == old(bodyOverflow)
      ensures loading == old(loading) && error == old(error) && relatedProjects == old(relatedProjects)
    {
      if !HasGallery(project) {
        return;
      }
      currentGalleryIndex := JsRem(currentGalleryIndex + 1, |project.value.gallery.value|);
    }

    /** `previousImage`: nothing without a gallery, otherwise one step back with wrap-around. */
    method PreviousImage()
      modifies this
      ensures !HasGallery(project) ==> currentGalleryIndex == old(currentGalleryIndex)
      ensures HasGallery(project) ==> currentGalleryIndex == PreviousIndex(old(currentGalleryIndex), GalleryLength(project))
      ensures project == old(project) && isGalleryOpen == old(isGalleryOpen) && bodyOverflow == old(bodyOverflow)
      ensures loading == old(loading) && error == old(error) && relatedProjects == old(relatedProjects)
    {
      if !HasGallery(project) {
        return;
      }
      currentGalleryIndex := if currentGalleryIndex == 0 then |project.value.gallery.value| - 1
                             else currentGalleryIndex - 1;
    }
  }

  /** A fetched project never ends the loading state as written, whatever its fields and the project list. */
  method LoadingNeverEndsAsWritten(p: Project, all: Fetch<seq<Project>>) returns (loading: bool, related: seq<Project>)
    ensures loading && related == []
  {
    var c := new ProjectDetailComponent(true);
    c.LoadProjectAsWritten(Fetched(p), all);
    loading, related := c.loading, c.relatedProjects;
  }

  /**
   * With the SEO update corrected, a fetched project ends loading and shows
   * its related projects exactly when it has `technologies`.
   */
  method LoadingEnds(p: Project, all: Fetch<seq<Project>>) returns (loading: bool, related: seq<Project>)
    ensures loading <==> p.technologies.None?
    ensures related == (if p.technologies.Some? && all.Fetched? then RelatedProjects(p, all.value) else [])
  {
    var c := new ProjectDetailComponent(true);
    c.LoadProject(Fetched(p), all);
    loading, related := c.loading, c.relatedProjects;
  }
}

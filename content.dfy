/**
 * The content records read from `projects.json` and `articles.json`
 * (and the per-item detail files), with only the fields the modelled
 * code reads. Fields that the JSON may omit are `Option`s; strings the
 * code tests for truthiness treat `""` as absent (see `Text.Truthy`).
 */
module Content {
  import opened Wrappers

  datatype Project = Project(
    id: string,
    title: string,
    description: string,
    category: string,
    date: string,                       // creation date, ISO-8601
    lastUpdated: Option<string>,        // ISO-8601, supersedes `date` for freshness
    featured: bool,
    status: Option<string>,             // "completed", "in-progress", ...
    technologies: Option<seq<string>>,
    images: Option<seq<string>>,        // file names under /assets/images/projects/{id}/
    gallery: Option<seq<string>>        // images shown by the detail page's gallery
  )

  datatype Article = Article(
    slug: string,
    title: string,
    date: string,
    lastUpdated: Option<string>,
    featured: bool,
    category: Option<string>,
    tags: Option<seq<string>>,
    readTime: Option<int>,              // minutes
    image: Option<string>,              // file name under /assets/images/articles/
    description: Option<string>,
    summary: Option<string>
  )
}

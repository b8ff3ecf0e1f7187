/**
 * The projects listing of src/pages/Projects.tsx: the search, difficulty and category filter
 * over the loaded projects, the difficulty badge colour, and the truncated feature list.
 */
module ProjectsPage {
  import opened Basics
  import opened Strings
  import Seqs

  datatype Project = Project(
    id: string, name: string, description: string, technologies: seq<string>, tags: seq<string>,
    difficulty: string, category: string, features: seq<string>)

  /** The lowercased name or description, or some technology or tag, contains the lowercased query. */
  predicate MatchesSearch(p: Project, query: string) {
    var q := Lower(query);
    || Contains(Lower(p.name), q)
    || Contains(Lower(p.description), q)
    || (exists tech | tech in p.technologies :: Contains(Lower(tech), q))
    || (exists tag | tag in p.tags :: Contains(Lower(tag), q))
  }

  /** The difficulty sentinel is the lowercase `"all"`. */
  predicate MatchesDifficulty(p: Project, difficulty: string) {
    difficulty == "all" || p.difficulty == difficulty
  }

  /** The category sentinel is the capitalised `"All"`. */
  predicate MatchesCategory(p: Project, category: string) {
    category == "All" || p.category == category
  }

  function ProjectMatcher(query: string, difficulty: string, category: string): Project -> bool {
    (p: Project) => MatchesSearch(p, query) && MatchesDifficulty(p, difficulty) && MatchesCategory(p, category)
  }

  function SearchMatcher(query: string): Project -> bool {
    (p: Project) => MatchesSearch(p, query)
  }

  /** `filteredProjects`: `projects?.filter(...) || []`. */
  function FilteredProjects(projects: Option<seq<Project>>, query: string, difficulty: string, category: string): (r: seq<Project>)
    ensures projects.None? ==> r == []
    ensures projects.Some? ==> Seqs.IsSubseq(r, projects.value)
    ensures forall i | 0 <= i < |r| ::
              MatchesSearch(r[i], query) && MatchesDifficulty(r[i], difficulty) && MatchesCategory(r[i], category)
    ensures projects.Some? ==>
              forall p | p in projects.value && MatchesSearch(p, query) && MatchesDifficulty(p, difficulty) && MatchesCategory(p, category)
                :: p in r
    ensures projects.Some? ==> multiset(r) <= multiset(projects.value)
    ensures projects.Some? ==>
              forall p | p in projects.value
                :: multiset(r)[p] == if MatchesSearch(p, query) && MatchesDifficulty(p, difficulty) && MatchesCategory(p, category)
                                     then multiset(projects.value)[p] else 0
  {
    match projects
    case None => []
    case Some(ps) => Seqs.Filter(ps, ProjectMatcher(query, difficulty, category))
  }

  /** With both sentinels selected only the search filters. */
  lemma SentinelsLeaveOnlySearch(ps: seq<Project>, query: string)
    ensures FilteredProjects(Some(ps), query, "all", "All") == Seqs.Filter(ps, SearchMatcher(query))
  {
    Seqs.FilterAgreeing(ps, ProjectMatcher(query, "all", "All"), SearchMatcher(query));
  }

  /** The sentinels are case-sensitive: a capitalised `"All"` difficulty keeps only projects whose difficulty is literally `"All"`. */
  lemma DifficultySentinelIsLowercase(ps: seq<Project>, query: string, category: string)
    ensures forall i | 0 <= i < |FilteredProjects(Some(ps), query, "All", category)|
              :: FilteredProjects(Some(ps), query, "All", category)[i].difficulty == "All"
  {
  }

  const DefaultDifficultyColor: string := "bg-gray-100 text-gray-800"

  const DifficultyColors: map<string, string> := map[
    "beginner" := "bg-green-100 text-green-800 dark:bg-green-900 dark:text-green-300",
    "intermediate" := "bg-yellow-100 text-yellow-800 dark:bg-yellow-900 dark:text-yellow-300",
    "advanced" := "bg-red-100 text-red-800 dark:bg-red-900 dark:text-red-300"
  ]

  /** `getDifficultyColor(difficulty)`: the table's class, else the plain gray default (which no level has). */
  function DifficultyColor(difficulty: string): (c: string)
    ensures c == DefaultDifficultyColor <==> difficulty !in DifficultyColors
    ensures difficulty in DifficultyColors ==> c == DifficultyColors[difficulty]
  {
    if difficulty in DifficultyColors then DifficultyColors[difficulty] else DefaultDifficultyColor
  }

  /** `features.slice(0, 3)`: the features a card lists. */
  function FeaturesShown(features: seq<string>): (r: seq<string>)
    ensures |r| == Min(3, |features|)
    ensures r == features[..|r|]
  {
    Seqs.Take(features, 3)
  }
}

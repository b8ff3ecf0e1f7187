/**
 * The resources listing of src/pages/Resources.tsx: the search-and-type filter over the loaded
 * resources, the de-duplicated type list of the type selector, the badge colour and label of a
 * type, and the truncated tag badges of a card.
 */
module ResourcesPage {
  import opened Basics
  import opened Strings
  import Seqs

  datatype Resource = Resource(id: string, name: string, description: string, tags: seq<string>, kind: string)

  /** The search half: the lowercased name, description or some tag contains the lowercased query. */
  predicate MatchesSearch(res: Resource, query: string) {
    var q := Lower(query);
    || Contains(Lower(res.name), q)
    || Contains(Lower(res.description), q)
    || (exists tag | tag in res.tags :: Contains(Lower(tag), q))
  }

  /** The type half: the lowercase sentinel `"all"`, else the exact type. */
  predicate MatchesType(res: Resource, typeFilter: string) {
    typeFilter == "all" || res.kind == typeFilter
  }

  function ResourceMatcher(query: string, typeFilter: string): Resource -> bool {
    (res: Resource) => MatchesSearch(res, query) && MatchesType(res, typeFilter)
  }

  /** `filteredResources`: `resources?.filter(...) || []`. */
  function FilteredResources(resources: Option<seq<Resource>>, query: string, typeFilter: string): (r: seq<Resource>)
    ensures resources.None? ==> r == []
    ensures resources.Some? ==> Seqs.IsSubseq(r, resources.value)
    ensures forall i | 0 <= i < |r| :: MatchesSearch(r[i], query) && MatchesType(r[i], typeFilter)
    ensures resources.Some? ==>
              forall res | res in resources.value && MatchesSearch(res, query) && MatchesType(res, typeFilter) :: res in r
    ensures resources.Some? ==> multiset(r) <= multiset(resources.value)
    ensures resources.Some? ==>
              forall res | res in resources.value
                :: multiset(r)[res] == if MatchesSearch(res, query) && MatchesType(res, typeFilter) then multiset(resources.value)[res] else 0
  {
    match resources
    case None => []
    case Some(rs) => Seqs.Filter(rs, ResourceMatcher(query, typeFilter))
  }

  /** The empty query matches every resource. */
  lemma EmptyQueryMatches(res: Resource)
    ensures MatchesSearch(res, "")
  {
    ContainsEmpty(Lower(res.name));
  }

  /** With the empty query and the `"all"` type the whole list is shown, in order. */
  lemma UnfilteredShowsAll(rs: seq<Resource>)
    ensures FilteredResources(Some(rs), "", "all") == rs
  {
    forall i | 0 <= i < |rs| ensures ResourceMatcher("", "all")(rs[i]) {
      EmptyQueryMatches(rs[i]);
    }
    Seqs.FilterKeepsAll(rs, ResourceMatcher("", "all"));
  }

  function Kinds(rs: seq<Resource>): (kinds: seq<string>)
    ensures |kinds| == |rs| && forall i | 0 <= i < |rs| :: kinds[i] == rs[i].kind
  {
    seq(|rs|, i requires 0 <= i < |rs| => rs[i].kind)
  }

  /** `resourceTypes`: `[...new Set(resources?.map(r => r.type) || [])]`. */
  function ResourceTypes(resources: Option<seq<Resource>>): (types: seq<string>)
    ensures Seqs.Distinct(types)
    ensures forall t | t in types :: exists i | 0 <= i < |resources.GetOr([])| :: resources.GetOr([])[i].kind == t
    ensures forall i | 0 <= i < |resources.GetOr([])| :: resources.GetOr([])[i].kind in types
  {
    Seqs.Dedup(Kinds(resources.GetOr([])))
  }

  /** The selector lists the types in the order in which they first occur among the resources. */
  lemma ResourceTypesInFirstOccurrenceOrder(rs: seq<Resource>)
    ensures forall i, j | 0 <= i < j < |ResourceTypes(Some(rs))|
              :: Seqs.FirstIndex(Kinds(rs), ResourceTypes(Some(rs))[i]) < Seqs.FirstIndex(Kinds(rs), ResourceTypes(Some(rs))[j])
  {
    Seqs.DedupKeepsFirstOccurrenceOrder(Kinds(rs));
  }

  const DefaultTypeColor: string := "bg-gray-100 text-gray-800"

  const TypeColors: map<string, string> := map[
    "ebook" := "bg-blue-100 text-blue-800 dark:bg-blue-900 dark:text-blue-300",
    "documentation" := "bg-green-100 text-green-800 dark:bg-green-900 dark:text-green-300",
    "cheat sheet" := "bg-purple-100 text-purple-800 dark:bg-purple-900 dark:text-purple-300",
    "course" := "bg-orange-100 text-orange-800 dark:bg-orange-900 dark:text-orange-300",
    "tutorial" := "bg-orange-100 text-orange-800 dark:bg-orange-900 dark:text-orange-300",
    "tool" := "bg-gray-100 text-gray-800 dark:bg-gray-900 dark:text-gray-300"
  ]

  /** `getTypeColor(type)`: the table's class, else the plain gray default (which no known type has). */
  function TypeColor(kind: string): (c: string)
    ensures c == DefaultTypeColor <==> kind !in TypeColors
    ensures kind in TypeColors ==> c == TypeColors[kind]
  {
    if kind in TypeColors then TypeColors[kind] else DefaultTypeColor
  }

  /** `type.charAt(0).toUpperCase() + type.slice(1)`. */
  function TypeLabel(kind: string): (caption: string)
    ensures |caption| == |kind|
    ensures kind != "" ==> caption[0] == UpperChar(kind[0]) && caption[1..] == kind[1..]
    ensures Lower(caption) == Lower(kind)
  {
    if kind == "" then "" else [UpperChar(kind[0])] + kind[1..]
  }

  /** The tag badges of a card: the first tags, and the `+n` badge for the rest. */
  datatype TagBadges = TagBadges(shown: seq<string>, more: Option<nat>)

  function CardTags(tags: seq<string>): (b: TagBadges)
    ensures |b.shown| == Min(3, |tags|) && b.shown == tags[..|b.shown|]
    ensures |tags| <= 3 ==> b.shown == tags
    ensures b.more.Some? <==> |tags| > 3
    ensures b.more.Some? ==> |b.shown| + b.more.value == |tags|
  {
    TagBadges(Seqs.Take(tags, 3), if |tags| > 3 then Some(|tags| - 3) else None)
  }
}

/** The data model shared by the feed, the cards and the filter bar:
    a project record and the seven sort options. */
module Types {

  datatype Option<+T> = None | Some(value: T)

  datatype Builder = Builder(name: string, avatar: string)

  /** The four counters shown on a card; counts are non-negative. */
  datatype Metrics = Metrics(upvotes: nat, comments: nat, shares: nat, visits: nat)

  /** A project record. `createdAt` is the creation time already converted to a
      timestamp (the source parses a date string; parsing is not modelled). */
  datatype Project = Project(
    id: string,
    title: string,
    description: string,
    thumbnail: string,
    builder: Builder,
    metrics: Metrics,
    tags: seq<string>,
    createdAt: nat)

  datatype SortOption =
    | MostVisited
    | MostLiked
    | MostCommented
    | MostUpvoted
    | MostRemixed
    | MostShared
    | Newest

  /** The string literal each sort option stands for in the source. */
  function SortValue(o: SortOption): string
  {
    match o
    case MostVisited => "most_visited"
    case MostLiked => "most_liked"
    case MostCommented => "most_commented"
    case MostUpvoted => "most_upvoted"
    case MostRemixed => "most_remixed"
    case MostShared => "most_shared"
    case Newest => "newest"
  }

  /** Distinct options have distinct literals, so comparing the strings (as the
      source does) is the same as comparing the options; none is empty. */
  lemma SortValueInjective(a: SortOption, b: SortOption)
    ensures SortValue(a) == SortValue(b) <==> a == b
    ensures SortValue(a) != ""
  {
  }
}

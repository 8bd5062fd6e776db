/** The filter bar (src/components/FilterBar.tsx): the sort-label lookup, the
    values its clicks report to the parent, and which items it highlights or
    shows. The dropdown open/closed flags are not modelled. */
module FilterBar {
  import opened Types
  import ProjectFeed

  datatype SortChoice = SortChoice(value: SortOption, name: string)

  /** The dropdown's option table, in display order. */
  const SortOptions: seq<SortChoice> := [
    SortChoice(MostVisited, "Most Visited"),
    SortChoice(MostLiked, "Most Liked"),
    SortChoice(MostCommented, "Most Commented"),
    SortChoice(MostUpvoted, "Most Upvoted"),
    SortChoice(MostRemixed, "Most Remixed"),
    SortChoice(MostShared, "Most Shared"),
    SortChoice(Newest, "Newest")
  ]

  const SortFallbackLabel: string := "Sort By"

  /** `options.find(o => o.value === value)?.label`: the label of the first
      matching option, if any. */
  function FindLabel(options: seq<SortChoice>, value: SortOption): Option<string>
  {
    if options == [] then None
    else if options[0].value == value then Some(options[0].name)
    else FindLabel(options[1..], value)
  }

  /** The lookup finds nothing exactly when no option has the value, and
      otherwise the label of the first option that has it. */
  lemma {:induction false} FindLabelSpec(options: seq<SortChoice>, value: SortOption)
    ensures FindLabel(options, value).None? <==> forall i :: 0 <= i < |options| ==> options[i].value != value
    ensures FindLabel(options, value).Some? ==> exists i :: (0 <= i < |options| && options[i].value == value &&
      FindLabel(options, value).value == options[i].name && forall j :: 0 <= j < i ==> options[j].value != value)
  {
    if options != [] && options[0].value != value {
      var tail := options[1..];
      FindLabelSpec(tail, value);
      var r := FindLabel(tail, value);
      if r.Some? {
        var i :| 0 <= i < |tail| && tail[i].value == value &&
          r.value == tail[i].name && forall j :: 0 <= j < i ==> tail[j].value != value;
        assert options[i + 1] == tail[i];
        forall j | 0 <= j < i + 1 ensures options[j].value != value {
          if j > 0 { assert options[j] == tail[j - 1]; }
        }
      } else {
        forall i | 0 <= i < |options| ensures options[i].value != value {
          if i > 0 { assert options[i] == tail[i - 1]; }
        }
      }
    }
  }

  /** `… ?.label || 'Sort By'`: an absent or empty label falls back. */
  function LabelOrFallback(found: Option<string>): string
  {
    if found.Some? && found.value != "" then found.value else SortFallbackLabel
  }

  /** getSortLabel: the label listed beside the option; since every option is
      listed, the 'Sort By' fallback is never returned. */
  function SortLabel(value: SortOption): (r: string)
    ensures r == SortOptions[Position(value)].name
    ensures r != SortFallbackLabel
  {
    FindLabelSpec(SortOptions, value);
    LabelOrFallback(FindLabel(SortOptions, value))
  }

  /** Where each option sits in the table. */
  function Position(v: SortOption): (i: nat)
    ensures i < |SortOptions| && SortOptions[i].value == v
  {
    match v
    case MostVisited => 0
    case MostLiked => 1
    case MostCommented => 2
    case MostUpvoted => 3
    case MostRemixed => 4
    case MostShared => 5
    case Newest => 6
  }

  /** The table names each sort option exactly once. */
  lemma SortOptionsListEachOnce(v: SortOption, j: nat)
    requires j < |SortOptions|
    ensures SortOptions[j].value == v <==> j == Position(v)
  {
  }

  /** Every option has its own label, so the label names the option. */
  lemma SortLabelNamesOption(a: SortOption, b: SortOption)
    ensures SortLabel(a) == SortLabel(b) <==> a == b
  {
  }

  /** The value reported when a category item is clicked. */
  function CategoryClicked(category: string): (reported: string)
    ensures reported == "" <==> category == "All" || category == ""
    ensures reported != "" ==> reported == category
  {
    if category == "All" then "" else category
  }

  /** Clicking 'All' yields a category the feed treats as unrestricted, and
      every other item a category the feed filters on. */
  lemma CategoryClickedFeedsFilter(category: string)
    ensures ProjectFeed.Unrestricted(CategoryClicked(category)) <==> ProjectFeed.Unrestricted(category)
    ensures CategoryClicked(CategoryClicked(category)) == CategoryClicked(category)
  {
  }

  /** With a category selected, exactly that item is highlighted; with none,
      'All' (and an empty item, if the list had one). */
  predicate CategoryHighlighted(item: string, selected: string)
    ensures selected != "" ==> (CategoryHighlighted(item, selected) <==> item == selected)
    ensures selected == "" ==> (CategoryHighlighted(item, selected) <==> item == "All" || item == "")
  {
    selected == item || (item == "All" && selected == "")
  }

  /** Sort items are compared by value; since values are distinct, exactly the
      chosen item is highlighted. */
  predicate SortHighlighted(item: SortOption, selected: SortOption)
    ensures SortHighlighted(item, selected) <==> item == selected
  {
    SortValueInjective(item, selected);
    SortValue(selected) == SortValue(item)
  }

  /** In a category list without an empty entry, clicking an item highlights
      that item and nothing else. */
  lemma ClickHighlightsOnlyThatCategory(categories: seq<string>, i: nat, j: nat)
    requires "" !in categories
    requires i < |categories| && j < |categories|
    ensures CategoryHighlighted(categories[j], CategoryClicked(categories[i])) <==> categories[j] == categories[i]
  {
  }

  /** The value reported when the sort chip's remove button is clicked. */
  function SortChipRemoved(): (o: SortOption)
    ensures SortValue(o) == "newest"
  {
    Newest
  }

  /** The value reported when the category chip's remove button is clicked. */
  function CategoryChipRemoved(): (c: string)
    ensures ProjectFeed.Unrestricted(c) && CategoryHighlighted("All", c)
  {
    ""
  }

  predicate SortChipShown(selected: SortOption)
  {
    SortValue(selected) != ""
  }

  predicate CategoryChipShown(selected: string)
  {
    selected != ""
  }

  /** `selectedSort || selectedCategory`: a sort option is never empty, so the
      row is shown for every well-typed selection. */
  predicate ActiveFiltersShown(selectedSort: SortOption, selectedCategory: string)
    ensures ActiveFiltersShown(selectedSort, selectedCategory)
  {
    SortValueInjective(selectedSort, selectedSort);
    SortChipShown(selectedSort) || CategoryChipShown(selectedCategory)
  }

  /** `selectedCategory || 'All Categories'` */
  function CategoryButtonLabel(selected: string): (caption: string)
    ensures caption != ""
    ensures selected != "" ==> caption == selected
    ensures selected == "" ==> caption == "All Categories"
  {
    if selected != "" then selected else "All Categories"
  }

  /** The sort chip is shown for every well-typed selection; the category chip
      exactly when a category is selected. */
  lemma ChipVisibility(selectedSort: SortOption, selectedCategory: string)
    ensures SortChipShown(selectedSort)
    ensures CategoryChipShown(selectedCategory) <==> !ProjectFeed.Unrestricted(selectedCategory) || selectedCategory == "All"
  {
  }

  /** After the category chip is removed: no category chip, 'All' highlighted,
      the button reads 'All Categories' and the feed is unfiltered. After the
      sort chip is removed: 'Newest' is highlighted and labelled. */
  lemma ChipRemovalResets()
    ensures !CategoryChipShown(CategoryChipRemoved())
    ensures CategoryButtonLabel(CategoryChipRemoved()) == "All Categories"
    ensures SortHighlighted(Newest, SortChipRemoved())
    ensures SortLabel(SortChipRemoved()) == "Newest"
  {
  }
}

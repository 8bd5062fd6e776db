/** One project card (src/components/ProjectCard.tsx): the local upvote toggle,
    the "Top Project" badge, the stagger class and the click forwarding. */
module ProjectCard {
  import opened Types

  /** Upvotes above this count earn the badge. */
  const TopProjectThreshold: int := 400

  /** The count a card shows: its project's upvotes, plus one while upvoted. */
  function UpvoteCount(base: nat, upvoted: bool): nat
  {
    if upvoted then base + 1 else base
  }

  predicate TopProject(upvotes: int)
  {
    upvotes > TopProjectThreshold
  }

  /** Over the counts a card can show, the badge depends on the project's own
      count and, only at exactly 400, on the viewer's upvote. */
  lemma TopProjectBadge(base: nat, upvoted: bool)
    ensures TopProject(UpvoteCount(base, upvoted)) <==> base > 400 || (base == 400 && upvoted)
  {
  }

  /** `(index % 6) + 1`: cards cycle through six animation delays. */
  function StaggerSlot(index: nat): (slot: nat)
    ensures 1 <= slot <= 6
  {
    index % 6 + 1
  }

  /** Six consecutive cards get six different delays, and the pattern repeats
      every six cards. */
  lemma StaggerSlotsCycle(i: nat, j: nat)
    ensures i < j < i + 6 ==> StaggerSlot(i) != StaggerSlot(j)
    ensures StaggerSlot(i + 6) == StaggerSlot(i)
  {
  }

  /** The class name `staggered-delay-N`. */
  function DelayClass(index: nat): (c: string)
    ensures |c| == 17 && c[..16] == "staggered-delay-"
    ensures '1' <= c[16] <= '6' && c[16] as int - '0' as int == StaggerSlot(index)
  {
    "staggered-delay-" + [('0' as int + StaggerSlot(index)) as char]
  }

  class Card {
    const project: Project
    const index: nat
    /** Whether the feed passed an `onProjectClick` callback. */
    const hasClickHandler: bool
    var isUpvoted: bool
    var upvotes: int

    /** The count is the project's count, plus one exactly while upvoted. */
    ghost predicate Valid()
      reads this
    {
      upvotes == UpvoteCount(project.metrics.upvotes, isUpvoted)
    }

    constructor(project: Project, index: nat, hasClickHandler: bool)
      ensures Valid()
      ensures this.project == project && this.index == index && this.hasClickHandler == hasClickHandler
      ensures !isUpvoted && upvotes == project.metrics.upvotes
    {
      this.project := project;
      this.index := index;
      this.hasClickHandler := hasClickHandler;
      isUpvoted := false;
      upvotes := project.metrics.upvotes;
    }

    /** handleUpvote: one up while not upvoted, one down while upvoted; the flag
        flips either way. */
    method ToggleUpvote()
      requires Valid()
      modifies this`isUpvoted, this`upvotes
      ensures Valid()
      ensures isUpvoted == !old(isUpvoted)
      ensures upvotes == if old(isUpvoted) then old(upvotes) - 1 else old(upvotes) + 1
      ensures upvotes == project.metrics.upvotes || upvotes == project.metrics.upvotes + 1
    {
      if isUpvoted {
        upvotes := upvotes - 1;
      } else {
        upvotes := upvotes + 1;
      }
      isUpvoted := !isUpvoted;
    }

    /** The badge is shown while the current count exceeds the threshold: for a
        consistent card, when the project's own count is over 400, or exactly
        400 and the viewer has upvoted. */
    function ShowsTopBadge(): (shown: bool)
      reads this
      ensures Valid() ==> (shown <==> project.metrics.upvotes > 400 || (project.metrics.upvotes == 400 && isUpvoted))
    {
      TopProjectBadge(project.metrics.upvotes, isUpvoted);
      TopProject(upvotes)
    }

    /** handleCardClick: the id forwarded to the callback, if there is one. */
    method Click() returns (forwarded: Option<string>)
      ensures forwarded.Some? <==> hasClickHandler
      ensures forwarded.Some? ==> forwarded.value == project.id
    {
      if hasClickHandler {
        forwarded := Some(project.id);
      } else {
        forwarded := None;
      }
    }
  }

  /** Two toggles in a row restore both the flag and the count. */
  method ToggleTwice(c: Card)
    requires c.Valid()
    modifies c
    ensures c.Valid()
    ensures c.isUpvoted == old(c.isUpvoted) && c.upvotes == old(c.upvotes)
  {
    c.ToggleUpvote();
    c.ToggleUpvote();
  }

  /** Whatever the viewer clicks, the badge of a card shows exactly when
      `TopProjectBadge` says it does. */
  method ToggleKeepsBadgeRule(c: Card) returns (badge: bool)
    requires c.Valid()
    modifies c
    ensures c.Valid()
    ensures badge <==> c.project.metrics.upvotes > 400 || (c.project.metrics.upvotes == 400 && c.isUpvoted)
  {
    c.ToggleUpvote();
    badge := c.ShowsTopBadge();
    TopProjectBadge(c.project.metrics.upvotes, c.isUpvoted);
  }
}

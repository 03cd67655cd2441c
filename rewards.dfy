/**
 * The rewards page (app/rewards/page.tsx): a category tab row and a
 * case-insensitive search over title and description, and the reward chosen
 * for redemption.
 */
module Rewards {
  import opened Wrappers
  import Text
  import Seqs

  datatype Category = Voucher | Cash | Product

  datatype Reward = Reward(
    id: string,
    title: string,
    description: string,
    pointsCost: nat,
    category: Category,
    image: string,
    partner: Option<string>)

  /** The `category` state: "all" or one reward category. */
  datatype CategoryFilter = All | Only(category: Category)

  /** The page's sample data, `rewards`. */
  const Rewards: seq<Reward> := [
    Reward("1", "₹100 Amazon Voucher", "Get a ₹100 voucher for Amazon India", 1000, Voucher,
      "/placeholder.svg?height=200&width=200", Some("Amazon")),
    Reward("2", "₹50 Cash Reward", "Withdraw ₹50 to your bank account", 500, Cash,
      "/placeholder.svg?height=200&width=200", None),
    Reward("3", "₹200 Flipkart Voucher", "Get a ₹200 voucher for Flipkart", 2000, Voucher,
      "/placeholder.svg?height=200&width=200", Some("Flipkart")),
    Reward("4", "Eco-friendly Water Bottle", "Reusable water bottle made from recycled materials", 1500, Product,
      "/placeholder.svg?height=200&width=200", None),
    Reward("5", "₹100 Cash Reward", "Withdraw ₹100 to your bank account", 1000, Cash,
      "/placeholder.svg?height=200&width=200", None),
    Reward("6", "Jute Shopping Bag", "Eco-friendly shopping bag made from jute", 800, Product,
      "/placeholder.svg?height=200&width=200", None)
  ]

  predicate InCategory(r: Reward, filter: CategoryFilter) {
    filter == All || r.category == filter.category
  }

  predicate MatchesSearch(r: Reward, query: string) {
    Text.Includes(r.title, query) || Text.Includes(r.description, query)
  }

  /** `filteredRewards`: in the chosen category and matching the search. */
  function FilteredRewards(rewards: seq<Reward>, filter: CategoryFilter, query: string): seq<Reward> {
    Seqs.Filter(rewards, (r: Reward) => InCategory(r, filter) && MatchesSearch(r, query))
  }

  /** A reward is listed exactly when it is in the category and matches the search; order is kept. */
  lemma FilteredRewardsSpec(rewards: seq<Reward>, filter: CategoryFilter, query: string)
    ensures forall i :: 0 <= i < |rewards| ==>
      (rewards[i] in FilteredRewards(rewards, filter, query) <==> InCategory(rewards[i], filter) && MatchesSearch(rewards[i], query))
    ensures forall x :: x in FilteredRewards(rewards, filter, query) ==> x in rewards
    ensures Seqs.IsSubsequence(FilteredRewards(rewards, filter, query), rewards)
  {
    Seqs.FilterIsSubsequence(rewards, (r: Reward) => InCategory(r, filter) && MatchesSearch(r, query));
  }

  /** The initial state, category "all" and an empty query, lists every reward. */
  lemma {:induction false} InitialShowsAll(rewards: seq<Reward>)
    ensures FilteredRewards(rewards, All, "") == rewards
  {
    forall i | 0 <= i < |rewards|
      ensures MatchesSearch(rewards[i], "")
    {
      Text.IncludesEmptyAndCaseBlind(rewards[i].title, "");
    }
    Seqs.FilterKeepsAll(rewards, (r: Reward) => InCategory(r, All) && MatchesSearch(r, ""));
  }

  /**
   * For a fixed query, the list under one category is the list under "all"
   * with the other categories removed: an order-preserving sub-list.
   */
  lemma CategoryNarrowsAll(rewards: seq<Reward>, c: Category, query: string)
    ensures FilteredRewards(rewards, Only(c), query)
      == Seqs.Filter(FilteredRewards(rewards, All, query), (r: Reward) => r.category == c)
    ensures Seqs.IsSubsequence(FilteredRewards(rewards, Only(c), query), FilteredRewards(rewards, All, query))
  {
    var narrow := (r: Reward) => InCategory(r, Only(c)) && MatchesSearch(r, query);
    var wide := (r: Reward) => InCategory(r, All) && MatchesSearch(r, query);
    Seqs.FilterNarrows(rewards, narrow, wide);
    var wideList := Seqs.Filter(rewards, wide);
    Seqs.FilterAgrees(wideList, narrow, (r: Reward) => r.category == c);
  }

  /** The partner name is not searched: changing it never changes whether a reward is listed. */
  lemma PartnerNotSearched(r: Reward, partner: Option<string>, filter: CategoryFilter, query: string)
    ensures (InCategory(r, filter) && MatchesSearch(r, query))
      == (InCategory(r.(partner := partner), filter) && MatchesSearch(r.(partner := partner), query))
  {
  }

  /** The four category buttons, in the order they are rendered. */
  const CategoryButtons: seq<CategoryFilter> := [All, Only(Voucher), Only(Cash), Only(Product)]

  datatype Variant = Default | Outline

  /** A button's variant is "default" when it names the current category. */
  function ButtonVariant(button: CategoryFilter, current: CategoryFilter): Variant {
    if button == current then Default else Outline
  }

  /** Whatever the current category, exactly one button has the "default" variant. */
  lemma ExactlyOneDefaultButton(current: CategoryFilter)
    ensures |Seqs.Filter(CategoryButtons, (b: CategoryFilter) => ButtonVariant(b, current) == Default)| == 1
  {
    var isDefault := (b: CategoryFilter) => ButtonVariant(b, current) == Default;
    var bs := CategoryButtons;
    assert bs[1..][1..][1..][1..] == [];
    var f3 := Seqs.Filter(bs[1..][1..][1..], isDefault);
    assert |f3| == if current == bs[3] then 1 else 0;
    var f2 := Seqs.Filter(bs[1..][1..], isDefault);
    assert |f2| == |f3| + if current == bs[2] then 1 else 0;
    var f1 := Seqs.Filter(bs[1..], isDefault);
    assert |f1| == |f2| + if current == bs[1] then 1 else 0;
    assert |Seqs.Filter(bs, isDefault)| == |f1| + if current == bs[0] then 1 else 0;
    assert |Seqs.Filter(bs, isDefault)| == 1 by {
      if current != All {
        assert current == Only(current.category);
        match current.category
        case Voucher =>
        case Cash =>
        case Product =>
      }
    }
  }

  /** What the reward grid shows: the listed rewards, or "No rewards found". */
  datatype Grid = RewardCards(rewards: seq<Reward>) | NoRewardsFound

  function GridFor(rewards: seq<Reward>, filter: CategoryFilter, query: string): Grid {
    var shown := FilteredRewards(rewards, filter, query);
    if |shown| > 0 then RewardCards(shown) else NoRewardsFound
  }

  /** "No rewards found" appears exactly when no reward passes both conditions. */
  lemma NoRewardsIffNoneMatch(rewards: seq<Reward>, filter: CategoryFilter, query: string)
    ensures GridFor(rewards, filter, query) == NoRewardsFound
      <==> forall i :: 0 <= i < |rewards| ==> !(InCategory(rewards[i], filter) && MatchesSearch(rewards[i], query))
  {
    var shown := FilteredRewards(rewards, filter, query);
    if |shown| > 0 {
      assert shown[0] in shown;
    }
  }

  /** The page's state: the search box, the category tab and the reward chosen for redemption. */
  class RewardsPage {
    var searchQuery: string
    var category: CategoryFilter
    var selectedReward: Option<Reward>

    constructor ()
      ensures searchQuery == "" && category == All && selectedReward == None
    {
      searchQuery := "";
      category := All;
      selectedReward := None;
    }

    function Grid(): Grid
      reads this
    {
      GridFor(Rewards, category, searchQuery)
    }

    method OnSearchChange(query: string)
      modifies this`searchQuery
      ensures searchQuery == query
      ensures category == old(category) && selectedReward == old(selectedReward)
    {
      searchQuery := query;
    }

    /** A category button sets the category and nothing else. */
    method OnCategoryClick(button: CategoryFilter)
      modifies this`category
      ensures category == button
      ensures searchQuery == old(searchQuery) && selectedReward == old(selectedReward)
    {
      category := button;
    }

    /** "Redeem" records the reward shown in the confirmation dialog. */
    method OnRedeemClick(reward: Reward)
      modifies this`selectedReward
      ensures selectedReward == Some(reward)
      ensures searchQuery == old(searchQuery) && category == old(category)
    {
      selectedReward := Some(reward);
    }
  }

  /** Under a category tab, every card shown is of that category. */
  lemma GridStaysInCategory(rewards: seq<Reward>, c: Category, query: string)
    ensures var grid := GridFor(rewards, Only(c), query);
      grid.RewardCards? ==> forall i :: 0 <= i < |grid.rewards| ==> grid.rewards[i].category == c
  {
  }

  /** A client run: the page as first rendered shows every reward; a category click narrows the grid to that category. */
  method FirstGridThenCategory(c: Category) returns (first: Grid, narrowed: Grid)
    ensures first == RewardCards(Rewards)
    ensures narrowed == GridFor(Rewards, Only(c), "")
    ensures narrowed.RewardCards? ==> forall i :: 0 <= i < |narrowed.rewards| ==> narrowed.rewards[i].category == c
  {
    var page := new RewardsPage();
    InitialShowsAll(Rewards);
    first := page.Grid();
    page.OnCategoryClick(Only(c));
    narrowed := page.Grid();
    GridStaysInCategory(Rewards, c, "");
  }
}

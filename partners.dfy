/**
 * The partners page (app/partners/page.tsx): an "All Partners" tab, one tab
 * per partner type, and the card drawn for each partner.
 */
module Partners {
  import opened Wrappers
  import Seqs

  datatype PartnerKind = Ngo | Recycler | Corporate

  datatype Partner = Partner(
    id: string,
    name: string,
    kind: PartnerKind,
    description: string,
    location: string,
    verified: bool,
    logo: string,
    website: Option<string>)

  /** The page's sample data, `partners`. */
  const Partners: seq<Partner> := [
    Partner("1", "Green Earth Foundation", Ngo,
      "Working towards a plastic-free India through community engagement and education.",
      "New Delhi", true, "/placeholder.svg?height=100&width=100", Some("https://example.com/green-earth")),
    Partner("2", "EcoRecycle India", Recycler,
      "Leading plastic recycling company with facilities across major Indian cities.",
      "Mumbai", true, "/placeholder.svg?height=100&width=100", Some("https://example.com/ecorecycle")),
    Partner("3", "Clean Bharat Initiative", Ngo,
      "Grassroots organization focused on cleaning up plastic waste from rivers and beaches.",
      "Chennai", true, "/placeholder.svg?height=100&width=100", Some("https://example.com/clean-bharat")),
    Partner("4", "Tata Sustainability", Corporate,
      "Corporate sustainability program supporting plastic waste reduction initiatives.",
      "Bangalore", true, "/placeholder.svg?height=100&width=100", Some("https://example.com/tata-sustainability")),
    Partner("5", "Plastic Free Kolkata", Ngo,
      "Local NGO working to eliminate single-use plastics in Kolkata.",
      "Kolkata", false, "/placeholder.svg?height=100&width=100", None),
    Partner("6", "Reliance Green Initiative", Corporate,
      "Corporate program focused on plastic waste management and recycling innovation.",
      "Mumbai", true, "/placeholder.svg?height=100&width=100", Some("https://example.com/reliance-green"))
  ]

  /** The tab of one partner type. */
  function TypeTab(partners: seq<Partner>, kind: PartnerKind): seq<Partner> {
    Seqs.Filter(partners, (p: Partner) => p.kind == kind)
  }

  /** A type tab lists exactly the partners of that type, in their original order. */
  lemma TypeTabSpec(partners: seq<Partner>, kind: PartnerKind)
    ensures forall i :: 0 <= i < |partners| ==> (partners[i] in TypeTab(partners, kind) <==> partners[i].kind == kind)
    ensures forall p :: p in TypeTab(partners, kind) ==> p in partners && p.kind == kind
    ensures Seqs.IsSubsequence(TypeTab(partners, kind), partners)
  {
    Seqs.FilterIsSubsequence(partners, (p: Partner) => p.kind == kind);
  }

  /** The three type tabs split the "All Partners" tab: every partner appears in exactly one of them. */
  lemma TypeTabsPartitionAll(partners: seq<Partner>)
    ensures |TypeTab(partners, Ngo)| + |TypeTab(partners, Recycler)| + |TypeTab(partners, Corporate)| == |partners|
    ensures multiset(TypeTab(partners, Ngo)) + multiset(TypeTab(partners, Recycler)) + multiset(TypeTab(partners, Corporate))
      == multiset(partners)
  {
    var isNgo := (p: Partner) => p.kind == Ngo;
    var notNgo := (p: Partner) => p.kind != Ngo;
    var isRecycler := (p: Partner) => p.kind == Recycler;
    var isCorporate := (p: Partner) => p.kind == Corporate;
    Seqs.FilterSplits(partners, isNgo, notNgo);
    var rest := Seqs.Filter(partners, notNgo);
    Seqs.FilterSplits(rest, isRecycler, isCorporate);
    Seqs.FilterNarrows(partners, isRecycler, notNgo);
    Seqs.FilterNarrows(partners, isCorporate, notNgo);
  }

  /** The type badge. */
  function TypeLabel(kind: PartnerKind): string {
    if kind == Ngo then "NGO" else if kind == Recycler then "Recycler" else "Corporate Partner"
  }

  /** Different types get different badges. */
  lemma TypeLabelsDistinct(a: PartnerKind, b: PartnerKind)
    ensures TypeLabel(a) == TypeLabel(b) <==> a == b
  {
  }

  /** What `PartnerCard` draws beyond the partner's own text. */
  datatype PartnerCardView = PartnerCardView(verifiedBadge: bool, typeLabel: string, websiteLink: Option<string>)

  /** `partner.website && …`: JavaScript drops the link for a missing website and for an empty one. */
  predicate HasWebsite(p: Partner) {
    p.website.Some? && p.website.value != ""
  }

  /**
   * The card shows "Verified" exactly for verified partners, and a Website
   * link exactly when the website is truthy, pointing at that website.
   */
  function PartnerCard(p: Partner): (card: PartnerCardView)
    ensures card.verifiedBadge <==> p.verified
    ensures card.websiteLink.Some? <==> p.website.Some? && p.website.value != ""
    ensures card.websiteLink.Some? ==> card.websiteLink == p.website
    ensures card.typeLabel == TypeLabel(p.kind)
  {
    PartnerCardView(p.verified, TypeLabel(p.kind), if HasWebsite(p) then p.website else None)
  }

  /** The Website links drawn on the cards of a tab, in card order. */
  function Links(partners: seq<Partner>): (links: seq<string>)
    ensures |links| <= |partners|
  {
    if partners == [] then []
    else
      var card := PartnerCard(partners[0]);
      (if card.websiteLink.Some? then [card.websiteLink.value] else []) + Links(partners[1..])
  }

  /**
   * A tab's cards link to no empty address, only to websites its partners
   * give, and to every website a partner in it gives.
   */
  lemma {:induction false} LinksAreTheWebsites(partners: seq<Partner>)
    ensures forall i :: 0 <= i < |Links(partners)| ==> Links(partners)[i] != ""
    ensures forall l :: l in Links(partners) ==> exists i :: 0 <= i < |partners| && partners[i].website == Some(l)
    ensures forall i :: 0 <= i < |partners| && HasWebsite(partners[i]) ==> partners[i].website.value in Links(partners)
    ensures |Links(partners)| == |Seqs.Filter(partners, HasWebsite)|
  {
    if partners != [] {
      LinksAreTheWebsites(partners[1..]);
      forall l | l in Links(partners)
        ensures exists i :: 0 <= i < |partners| && partners[i].website == Some(l)
      {
        if l in Links(partners[1..]) {
          var j :| 0 <= j < |partners[1..]| && partners[1..][j].website == Some(l);
          assert partners[j + 1].website == Some(l);
        } else {
          assert partners[0].website == Some(l);
        }
      }
      forall i | 0 <= i < |partners| && HasWebsite(partners[i])
        ensures partners[i].website.value in Links(partners)
      {
        if i > 0 {
          assert partners[1..][i - 1] == partners[i];
        }
      }
    }
  }

  /** Of the sample partners, only "Plastic Free Kolkata" has neither the Verified badge nor a Website link. */
  lemma SampleCards()
    ensures forall i :: 0 <= i < |Partners| ==> (!PartnerCard(Partners[i]).verifiedBadge <==> i == 4)
    ensures forall i :: 0 <= i < |Partners| ==> (PartnerCard(Partners[i]).websiteLink.None? <==> i == 4)
  {
  }
}

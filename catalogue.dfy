/** The service catalogue the detail page reads: the `SERVICES` table of
    constants.tsx, field for field (the `image` field the `Service` type
    declares is absent from every entry and is not modelled). Long texts are
    written as short literals joined with `+`. */
module Catalogue {

  datatype Service = Service(
    id: string,
    title: string,
    shortDescription: string,
    fullDescription: string,
    icon: string,
    features: seq<string>)

  /** The service ids, in catalogue order. */
  function Ids(services: seq<Service>): (ids: seq<string>)
    ensures |ids| == |services|
    ensures forall i :: 0 <= i < |services| ==> ids[i] == services[i].id
  {
    seq(|services|, i requires 0 <= i < |services| => services[i].id)
  }

  /** No two entries share an id. */
  ghost predicate DistinctIds(services: seq<Service>) {
    forall i, j :: 0 <= i < j < |services| ==> services[i].id != services[j].id
  }

  /** The ids of the site's services, in catalogue order. */
  const SiteIds: seq<string> :=
    ["social-media", "content-creation", "production", "performance-marketing", "creative-ideas"]

  /** Characters the site's router cuts a path at or decodes: `/` ends the
      segment, `#` and `?` end the path and `%` starts an escape. */
  const RouteReserved: set<char> := {'/', '#', '?', '%'}

  /** A non-empty path segment that the router reads back unchanged. */
  predicate IsSegment(id: string) {
    id != "" && forall i :: 0 <= i < |id| ==> id[i] !in RouteReserved
  }

  /** Every id is a segment of its own, as `/services/:id` needs. */
  ghost predicate SegmentIds(services: seq<Service>) {
    forall s :: s in services ==> IsSegment(s.id)
  }

  const Services: seq<Service> := [
    Service(
      "social-media",
      "Social Media " + "Management",
      "Data-driven " + "growth for your " + "social channels.",
      "We handle " + "everything from " + "strategy to " + "posting, " +
      "engagement, and " + "reporting. Our " + "goal is to build " + "a community " +
      "around your brand " + "that converts " + "into loyal " + "customers.",
      "fa-share-nodes",
      ["Strategy " + "Development", "Community " + "Management", "Content Scheduling", "Analytics & " + "Reporting"]),
    Service(
      "content-creation",
      "Creative Content",
      "Static posts and " + "cinematic reels " + "that captivate.",
      "Our creative team " + "produces visually " + "stunning static " + "posts and " +
      "high-energy reels " + "tailored for " + "Instagram, " + "TikTok, and " +
      "LinkedIn. We tell " + "stories that stop " + "the scroll.",
      "fa-clapperboard",
      ["Static Graphic " + "Design", "Video Reels & " + "Shorts", "Motion Graphics", "Copywriting"]),
    Service(
      "production",
      "Production Shoot",
      "Professional " + "studio and " + "on-site " + "production.",
      "From high-end " + "product " + "photography to " + "commercial video " +
      "shoots, our " + "production team " + "ensures your " + "brand looks " +
      "premium and " + "professional.",
      "fa-camera-retro",
      ["Commercial " + "Videography", "Product " + "Photography", "Post-Production", "Set Design"]),
    Service(
      "performance-marketing",
      "Performance " + "Marketing",
      "ROI-focused " + "campaigns that " + "drive results.",
      "We optimize your " + "ad spend across " + "Google, Meta, and " + "LinkedIn to " +
      "ensure you get " + "the highest " + "possible return " + "on investment.",
      "fa-chart-line",
      ["PPC Campaigns", "Paid Social", "Conversion Rate " + "Optimization", "Funnel Strategy"]),
    Service(
      "creative-ideas",
      "Creative Ideation",
      "Brainstorming the " + "next big trend " + "for your brand.",
      "Stuck in a rut? " + "Our creative " + "consultants " + "provide fresh " +
      "ideas and " + "innovative " + "concepts to keep " + "your brand ahead " +
      "of the curve.",
      "fa-lightbulb",
      ["Trend Research", "Campaign " + "Concepting", "Brand Voice " + "Development", "Viral Hook " + "Strategy"])
  ]

  /** The catalogue holds five services under five distinct ids. */
  lemma ServicesShape()
    ensures |Services| == 5
    ensures Ids(Services) == SiteIds
    ensures DistinctIds(Services)
  {
  }

  /** The catalogue's ids are single path segments, so each has a page of
      its own. */
  lemma ServiceIdsAreSegments()
    ensures SegmentIds(Services)
  {
    ServicesShape();
    SiteIdsAreSegments();
    SegmentIdsFromList(Services);
  }

  lemma SiteIdsAreSegments()
    ensures forall id :: id in SiteIds ==> IsSegment(id)
  {
  }

  /** A catalogue whose ids are the site's has one-segment ids. */
  lemma SegmentIdsFromList(services: seq<Service>)
    requires Ids(services) == SiteIds
    requires forall id :: id in SiteIds ==> IsSegment(id)
    ensures SegmentIds(services)
  {
    forall s | s in services
      ensures IsSegment(s.id)
    {
      var i :| 0 <= i < |services| && services[i] == s;
      assert s.id == Ids(services)[i];
    }
  }
}

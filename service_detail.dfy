/** The service detail page: which catalogue entry a `/services/:id` route
    shows, the not-found page, the features list and the "More Services"
    cards. The route parameter may be missing (`undefined`), hence an
    `Option`. */
module ServiceDetail {
  import opened Wrappers
  import opened Catalogue

  /** The position of the first entry whose id is the route's id (no string
      equals a missing parameter). */
  function FindIndex(services: seq<Service>, id: Option<string>): (r: Option<nat>)
    ensures r.Some? ==> r.value < |services| && Some(services[r.value].id) == id
    ensures r.Some? ==> forall j :: 0 <= j < r.value ==> Some(services[j].id) != id
    ensures r.None? <==> forall j :: 0 <= j < |services| ==> Some(services[j].id) != id
    decreases |services|
  {
    if services == [] then None
    else if Some(services[0].id) == id then Some(0)
    else
      match FindIndex(services[1..], id)
      case None => None
      case Some(i) => Some(i + 1)
  }

  /** `SERVICES.find(s => s.id === id)`: an entry of the catalogue with the
      route's id, or nothing exactly when no entry has it. */
  function Find(services: seq<Service>, id: Option<string>): (r: Option<Service>)
    ensures r.Some? ==> r.value in services && Some(r.value.id) == id
    ensures r.None? <==> forall s :: s in services ==> Some(s.id) != id
  {
    match FindIndex(services, id)
    case None => None
    case Some(i) => Some(services[i])
  }

  /** The service found is the first entry with the route's id, and nothing
      is found exactly when no entry has it. */
  lemma FindFirst(services: seq<Service>, id: Option<string>)
    ensures Find(services, id).Some? ==>
      exists i :: 0 <= i < |services| && Find(services, id) == Some(services[i])
        && Some(services[i].id) == id
        && forall j :: 0 <= j < i ==> Some(services[j].id) != id
    ensures Find(services, id).None? <==> forall s :: s in services ==> Some(s.id) != id
  {
    if Find(services, id).Some? {
      var i := FindIndex(services, id).value;
      assert Find(services, id) == Some(services[i]);
    }
  }

  /** With distinct ids, every entry is found again under its own id. */
  lemma FindOwnId(services: seq<Service>, i: nat)
    requires DistinctIds(services) && i < |services|
    ensures Find(services, Some(services[i].id)) == Some(services[i])
  {
    var r := FindIndex(services, Some(services[i].id));
    assert r.Some?;
    assert r.value == i;
  }

  /** `SERVICES.filter(s => s.id !== id)`: the other entries, in catalogue
      order. */
  function Others(services: seq<Service>, id: Option<string>): (r: seq<Service>)
    ensures |r| <= |services|
    ensures forall s :: s in r <==> s in services && Some(s.id) != id
    decreases |services|
  {
    if services == [] then []
    else (if Some(services[0].id) != id then [services[0]] else []) + Others(services[1..], id)
  }

  /** `xs` is `ys` with some entries dropped and the rest kept in order. */
  ghost predicate SubsequenceOf<T>(xs: seq<T>, ys: seq<T>)
    decreases |ys|
  {
    if xs == [] then true
    else if ys == [] then false
    else (xs[0] == ys[0] && SubsequenceOf(xs[1..], ys[1..])) || SubsequenceOf(xs, ys[1..])
  }

  lemma {:induction false} OthersInOrder(services: seq<Service>, id: Option<string>)
    ensures SubsequenceOf(Others(services, id), services)
    decreases |services|
  {
    if services != [] {
      OthersInOrder(services[1..], id);
      var rest := Others(services[1..], id);
      if Some(services[0].id) != id {
        assert Others(services, id) == [services[0]] + rest;
        assert ([services[0]] + rest)[1..] == rest;
      } else {
        assert Others(services, id) == rest;
        SubsequenceSkip(rest, services);
      }
    }
  }

  /** Dropping the head of `ys` keeps a subsequence of its tail one of `ys`. */
  lemma SubsequenceSkip<T>(xs: seq<T>, ys: seq<T>)
    requires ys != [] && SubsequenceOf(xs, ys[1..])
    ensures SubsequenceOf(xs, ys)
  {
  }

  lemma {:induction false} SubsequencePrefix<T>(xs: seq<T>, ys: seq<T>, n: nat)
    requires SubsequenceOf(xs, ys) && n <= |xs|
    ensures SubsequenceOf(xs[..n], ys)
    decreases |ys|
  {
    if n > 0 && ys != [] {
      if xs[0] == ys[0] && SubsequenceOf(xs[1..], ys[1..]) {
        SubsequencePrefix(xs[1..], ys[1..], n - 1);
        assert xs[..n][1..] == xs[1..][..n - 1];
      } else {
        SubsequencePrefix(xs, ys[1..], n);
        SubsequenceSkip(xs[..n], ys);
      }
    }
  }

  /** With distinct ids, leaving out an id that is present drops exactly one
      entry. */
  lemma {:induction false} OthersOfPresentId(services: seq<Service>, id: string)
    requires DistinctIds(services)
    requires exists i :: 0 <= i < |services| && services[i].id == id
    ensures |Others(services, Some(id))| == |services| - 1
    decreases |services|
  {
    var rest := services[1..];
    assert DistinctIds(rest) by {
      assert forall j :: 0 <= j < |rest| ==> rest[j] == services[j + 1];
    }
    if services[0].id == id {
      assert forall j :: 0 <= j < |rest| ==> rest[j].id != id by {
        assert forall j :: 0 <= j < |rest| ==> rest[j] == services[j + 1];
      }
      OthersOfAbsentId(rest, Some(id));
    } else {
      var i :| 0 <= i < |services| && services[i].id == id;
      assert rest[i - 1].id == id;
      OthersOfPresentId(rest, id);
    }
  }

  /** Leaving out an id no entry has drops nothing. */
  lemma {:induction false} OthersOfAbsentId(services: seq<Service>, id: Option<string>)
    requires forall j :: 0 <= j < |services| ==> Some(services[j].id) != id
    ensures Others(services, id) == services
    decreases |services|
  {
    if services != [] {
      OthersOfAbsentId(services[1..], id);
      assert [services[0]] + services[1..] == services;
    }
  }

  /** `.slice(0, 4)`: the first four entries, or all of them when fewer. */
  function Take<T>(xs: seq<T>, n: nat): (r: seq<T>)
    ensures |r| == if |xs| < n then |xs| else n
    ensures r == xs[..|r|]
  {
    if |xs| <= n then xs else xs[..n]
  }

  const MoreLimit: nat := 4

  /** The "More Services" entries: the others, cut to four. At most four,
      all from the catalogue, none of them the current service. */
  function MoreServices(services: seq<Service>, id: Option<string>): (more: seq<Service>)
    ensures |more| <= MoreLimit
    ensures forall s :: s in more ==> s in services && Some(s.id) != id
  {
    Take(Others(services, id), MoreLimit)
  }

  /** "More Services" never shows the current service, holds at most four
      cards and keeps catalogue order. */
  lemma MoreServicesShape(services: seq<Service>, id: Option<string>)
    ensures var more := MoreServices(services, id);
      && |more| <= MoreLimit
      && (forall s :: s in more ==> s in services && Some(s.id) != id)
      && SubsequenceOf(more, services)
  {
    var others := Others(services, id);
    var more := MoreServices(services, id);
    assert forall s :: s in more ==> s in others;
    OthersInOrder(services, id);
    SubsequencePrefix(others, services, |more|);
  }

  /** When the shown service is found and ids are distinct, "More Services"
      lists the first four other entries, or all of them when there are
      fewer. */
  lemma {:induction false} MoreServicesCount(services: seq<Service>, id: Option<string>)
    requires DistinctIds(services) && Find(services, id).Some?
    ensures |MoreServices(services, id)| == if |services| - 1 < 4 then |services| - 1 else 4
  {
    var i := FindIndex(services, id).value;
    OthersOfPresentId(services, services[i].id);
  }

  /** A list item of the features list: its `key` is the position. */
  datatype FeatureItem = FeatureItem(key: nat, text: string)

  /** `service.features.map((feature, idx) => <li key={idx}>…)`. */
  function FeatureItems(features: seq<string>): (items: seq<FeatureItem>)
    ensures |items| == |features|
    ensures forall i :: 0 <= i < |features| ==> items[i] == FeatureItem(i, features[i])
  {
    seq(|features|, i requires 0 <= i < |features| => FeatureItem(i, features[i]))
  }

  /** A "More Services" card: keyed by the id and linking to its own page. */
  datatype Card = Card(key: string, to: string, icon: string, title: string)

  const ServicesPrefix: string := "/services/"

  function CardOf(s: Service): Card {
    Card(s.id, ServicesPrefix + s.id, s.icon, s.title)
  }

  function Cards(services: seq<Service>): (cards: seq<Card>)
    ensures |cards| == |services|
    ensures forall i :: 0 <= i < |services| ==> cards[i] == CardOf(services[i])
  {
    seq(|services|, i requires 0 <= i < |services| => CardOf(services[i]))
  }

  /** The `:id` parameter the router reads back from a path in canonical
      form: the prefix followed by one segment holding nothing the router
      would cut off or decode, which is then the id unchanged. */
  function RouteId(path: string): (id: Option<string>)
    ensures id.Some? <==>
      && |path| > |ServicesPrefix| && path[..|ServicesPrefix|] == ServicesPrefix
      && IsSegment(path[|ServicesPrefix|..])
    ensures id.Some? ==> path == ServicesPrefix + id.value && IsSegment(id.value)
  {
    if |path| > |ServicesPrefix| && path[..|ServicesPrefix|] == ServicesPrefix
      && IsSegment(path[|ServicesPrefix|..])
    then Some(path[|ServicesPrefix|..])
    else None
  }

  /** The link of a card whose id is a segment leads back to that id. */
  lemma RouteIdOfLink(id: string)
    requires IsSegment(id)
    ensures RouteId(ServicesPrefix + id) == Some(id)
  {
    assert (ServicesPrefix + id)[..|ServicesPrefix|] == ServicesPrefix;
    assert (ServicesPrefix + id)[|ServicesPrefix|..] == id;
  }

  /** What the page renders. */
  datatype Page =
    | NotFound
    | Detail(service: Service, features: seq<FeatureItem>, more: seq<Card>)

  function Render(services: seq<Service>, id: Option<string>): (page: Page)
    ensures page.NotFound? <==> Find(services, id).None?
    ensures page.Detail? ==> Find(services, id) == Some(page.service)
    ensures page.Detail? ==> |page.more| <= MoreLimit
    ensures page.Detail? ==> forall k :: 0 <= k < |page.more| ==> Some(page.more[k].key) != id
  {
    match Find(services, id)
    case None => NotFound
    case Some(service) =>
      Detail(service, FeatureItems(service.features), Cards(MoreServices(services, id)))
  }

  /** The page is the not-found page exactly when no entry has the route's
      id; otherwise it shows the entry found, all of its features in order,
      and one card per "More Services" entry. */
  lemma RenderShows(services: seq<Service>, id: Option<string>)
    ensures Render(services, id).NotFound? <==> forall s :: s in services ==> Some(s.id) != id
    ensures Render(services, id).Detail? ==>
      var page := Render(services, id);
      && Find(services, id) == Some(page.service)
      && |page.features| == |page.service.features|
      && (forall i :: 0 <= i < |page.features| ==> page.features[i].text == page.service.features[i])
      && |page.more| == |MoreServices(services, id)|
  {
    FindFirst(services, id);
  }

  /** Every card links to a page that shows the card's own service, never
      the current one, when ids are distinct single path segments. */
  lemma CardsLinkBack(services: seq<Service>, id: Option<string>, k: nat)
    requires DistinctIds(services) && SegmentIds(services)
    requires Render(services, id).Detail? && k < |Render(services, id).more|
    ensures var card := Render(services, id).more[k];
      && RouteId(card.to) == Some(card.key)
      && Render(services, Some(card.key)).Detail?
      && Render(services, Some(card.key)).service == MoreServices(services, id)[k]
      && Some(card.key) != id
  {
    var more := MoreServices(services, id);
    var s := more[k];
    MoreServicesShape(services, id);
    assert s in more;
    var i :| 0 <= i < |services| && services[i] == s;
    FindOwnId(services, i);
    var card := Render(services, id).more[k];
    assert card == CardOf(s);
    RouteIdOfLink(s.id);
  }

  /** On the site's own catalogue, every service id has a page, and that
      page lists exactly four other services. */
  lemma CatalogueMoreServices(id: string)
    requires id in SiteIds
    ensures Find(Services, Some(id)).Some?
    ensures |MoreServices(Services, Some(id))| == 4
  {
    ServicesShape();
    var i :| 0 <= i < |SiteIds| && SiteIds[i] == id;
    assert Services[i].id == id by {
      assert Ids(Services)[i] == Services[i].id;
    }
    MoreServicesCount(Services, Some(id));
  }
}

/** `GET /api/services/public` (src/app/api/services/public/route.ts): the
    catalogue anyone may browse. It keeps the active services, narrowed by an
    optional category and an optional case-insensitive text search, newest
    first, each with a summary of the taskio who offers it. */
module PublicServicesRoute {
  import opened Common
  import opened Text
  import opened UserModel
  import opened ServiceModel

  const AllCategories: string := "all"

  /** `populate('taskioId', 'name profilePicture')`, reshaped as `taskio`. */
  datatype TaskioSummary = TaskioSummary(id: string, name: string, profilePicture: Option<string>)

  /** One element of the answer: the listed fields of a service and its taskio.
      Availability, portfolio, booking policy and `isActive` are not among them. */
  datatype PublicService = PublicService(
    id: string,
    title: string,
    category: string,
    tags: seq<string>,
    description: string,
    serviceImage: Option<string>,
    pricingModel: PricingModel,
    priceRange: PriceRange,
    isNegotiable: bool,
    location: Location,
    experience: Experience,
    additionalInfo: AdditionalInfo,
    taskio: TaskioSummary,
    createdAt: int)

  /** `category && category !== 'all'`: the category narrows the query. */
  predicate CategoryApplies(category: Option<string>)
  {
    TruthyText(category) && category.value != AllCategories
  }

  /** `if (search)`: a non-empty search narrows the query. */
  predicate SearchApplies(search: Option<string>)
  {
    TruthyText(search)
  }

  /** The `$or` of the three regular expressions with the `i` flag. */
  predicate MatchesSearch(s: Service, q: string)
  {
    || ContainsIgnoreCase(s.title, q)
    || ContainsIgnoreCase(s.description, q)
    || exists i :: 0 <= i < |s.tags| && ContainsIgnoreCase(s.tags[i], q)
  }

  /** The query the handler assembles: active, then the category, then the search. */
  predicate Listed(s: Service, category: Option<string>, search: Option<string>)
  {
    && s.isActive
    && (CategoryApplies(category) ==> s.category == category.value)
    && (SearchApplies(search) ==> MatchesSearch(s, search.value))
  }

  function Project(s: Service, taskio: User): (v: PublicService)
    ensures v.id == s.id && v.createdAt == s.createdAt && v.taskio.id == taskio.id
  {
    PublicService(s.id, s.title, s.category, s.tags, s.description, s.serviceImage, s.pricingModel, s.priceRange,
                  s.isNegotiable, s.location, s.experience, s.additionalInfo,
                  TaskioSummary(taskio.id, taskio.name, taskio.profilePicture), s.createdAt)
  }

  /** Every service in `ss` has its taskio among `users`. */
  predicate AllOwnersResolve(ss: seq<Service>, users: seq<User>)
  {
    forall i :: 0 <= i < |ss| ==> FindUserById(users, ss[i].taskioId).Some?
  }

  /** The `map` that reads `service.taskioId._id`: it throws on a service whose
      taskio is gone (`None` here), and otherwise projects every service in order. */
  function ProjectAll(ss: seq<Service>, users: seq<User>): (r: Option<seq<PublicService>>)
    ensures r.Some? <==> AllOwnersResolve(ss, users)
    ensures r.Some? ==> |r.value| == |ss|
    ensures r.Some? ==> forall i :: 0 <= i < |ss| ==> r.value[i] == Project(ss[i], FindUserById(users, ss[i].taskioId).value)
  {
    if AllOwnersResolve(ss, users)
    then Some(seq(|ss|, i requires 0 <= i < |ss| && AllOwnersResolve(ss, users) =>
                          Project(ss[i], FindUserById(users, ss[i].taskioId).value)))
    else None
  }

  /** `Service.find(query).sort({ createdAt: -1 })`. */
  function ListedServices(services: seq<Service>, category: Option<string>, search: Option<string>): seq<Service>
  {
    SortNewestFirst(Filter(services, (s: Service) => Listed(s, category, search)), (s: Service) => s.createdAt)
  }

  /** `GET /api/services/public?category=...&search=...`. */
  function PublicGet(category: Option<string>, search: Option<string>, services: seq<Service>, users: seq<User>)
    : (r: Reply<seq<PublicService>>)
    ensures r.Err? <==> !AllOwnersResolve(ListedServices(services, category, search), users)
    ensures r.Err? ==> r == Err(500, InternalError)
    ensures r.Ok? ==> r.status == 200 && |r.body| == |ListedServices(services, category, search)|
  {
    match ProjectAll(ListedServices(services, category, search), users)
    case None => Err(500, InternalError)
    case Some(vs) => Ok(200, vs)
  }

  /** The answer holds one projection per listed service and nothing else. */
  lemma PublicGetMembers(category: Option<string>, search: Option<string>, services: seq<Service>,
                         users: seq<User>, v: PublicService)
    requires PublicGet(category, search, services, users).Ok?
    ensures v in PublicGet(category, search, services, users).body <==>
              exists s :: && s in services && Listed(s, category, search)
                          && FindUserById(users, s.taskioId).Some?
                          && v == Project(s, FindUserById(users, s.taskioId).value)
  {
    var listed := Filter(services, (s: Service) => Listed(s, category, search));
    var sorted := ListedServices(services, category, search);
    var vs := PublicGet(category, search, services, users).body;
    forall s ensures s in sorted <==> s in listed {
      SortKeepsElements(listed, (s: Service) => s.createdAt, s);
    }
    if v in vs {
      var i :| 0 <= i < |vs| && vs[i] == v;
      assert sorted[i] in sorted;
    }
    forall s | s in services && Listed(s, category, search) && FindUserById(users, s.taskioId).Some?
      ensures Project(s, FindUserById(users, s.taskioId).value) in vs
    {
      assert s in sorted;
      var i :| 0 <= i < |sorted| && sorted[i] == s;
      assert vs[i] == Project(s, FindUserById(users, s.taskioId).value);
    }
  }

  /** Only active services are ever shown, and the answer is newest first. */
  lemma PublicGetActiveNewestFirst(category: Option<string>, search: Option<string>, services: seq<Service>,
                                   users: seq<User>)
    requires PublicGet(category, search, services, users).Ok?
    ensures var vs := PublicGet(category, search, services, users).body;
            && (forall i :: 0 <= i < |vs| ==> exists s :: s in services && s.isActive && s.id == vs[i].id)
            && (CategoryApplies(category) ==> forall i :: 0 <= i < |vs| ==> vs[i].category == category.value)
            && NewestFirst(vs, (v: PublicService) => v.createdAt)
  {
    var listed := Filter(services, (s: Service) => Listed(s, category, search));
    var sorted := ListedServices(services, category, search);
    var vs := PublicGet(category, search, services, users).body;
    forall i | 0 <= i < |vs|
      ensures exists s :: s in services && s.isActive && s.id == vs[i].id
      ensures CategoryApplies(category) ==> vs[i].category == category.value
    {
      assert sorted[i] in sorted;
      SortKeepsElements(listed, (s: Service) => s.createdAt, sorted[i]);
    }
    forall i, j | 0 <= i < j < |vs| ensures vs[i].createdAt >= vs[j].createdAt {
      assert vs[i].createdAt == sorted[i].createdAt && vs[j].createdAt == sorted[j].createdAt;
    }
  }

  /** An absent search, an empty one, an absent category, an empty one and
      `'all'` all leave that filter off. */
  lemma FiltersOff(s: Service, category: Option<string>, search: Option<string>)
    ensures Listed(s, category, Some("")) == Listed(s, category, None)
    ensures Listed(s, Some(AllCategories), search) == Listed(s, None, search)
    ensures Listed(s, Some(""), search) == Listed(s, None, search)
    ensures Listed(s, None, None) == s.isActive
  {
  }

  /** A search matches regardless of the case of the text or of the query. */
  lemma SearchIgnoresCase(s: Service, q: string)
    ensures MatchesSearch(s, ToLower(q)) == MatchesSearch(s, q)
    ensures MatchesSearch(s, s.title)
  {
    ToLowerIdempotent(q);
    ContainsSelf(ToLower(s.title));
  }
}

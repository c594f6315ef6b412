/**
 The endpoints (view sets) for projects, people, patches and the checks
 nested under a patch, composed the way Django REST framework runs a
 request: the view-level permission first, then the handler; an item
 handler looks its object up (not found), asks the object-level permission,
 then acts. The store is the set of rows the handlers read and write.
 */
module Endpoints {
  import opened Entities
  import opened Permissions
  import opened QueryFilters
  import opened Serializers

  /** The rows of the four tables; checks in creation order, with the next free key. */
  datatype Store = Store(
    projects: map<Id, Project>,
    patches: map<Id, Patch>,
    people: map<Id, Person>,
    checks: seq<Check>,
    nextCheckId: Id)

  /** The URL shape: the collection, or one item by primary key. */
  datatype Route = ListRoute | DetailRoute(pk: Id)

  datatype Request = Request(
    resource: Resource,
    route: Route,
    verb: Method,
    actor: Actor,
    query: QueryParams,
    body: Body)

  datatype Response =
    | Forbidden
    | NotFound
    | MethodNotAllowed
    | Invalid(error: Error)
    | OptionsInfo
      /** The records of the endpoint's table that satisfy the ORM lookups `filters`. */
    | Listing(filters: map<string, string>)
    | CheckListing(checks: seq<Check>)
    | Retrieved(obj: Obj)
    | Updated(obj: Obj)
    | Created(check: Check)
      /** An exception the framework does not translate into a response (`Patch.DoesNotExist`). */
    | ServerError

  datatype Outcome = Outcome(response: Response, store: Store)

  /** The first check with key `pk`. */
  function FindCheck(checks: seq<Check>, pk: Id): (r: Option<Check>)
    ensures r.Some? ==> exists i :: 0 <= i < |checks| && checks[i] == r.value
                                    && forall j :: 0 <= j < i ==> checks[j].id != pk
    ensures r.Some? ==> r.value.id == pk
    ensures r.None? ==> forall i :: 0 <= i < |checks| ==> checks[i].id != pk
  {
    if |checks| == 0 then None
    else if checks[0].id == pk then Some(checks[0])
    else
      var r := FindCheck(checks[1..], pk);
      assert forall i :: 1 <= i < |checks| ==> checks[i] == checks[1..][i - 1];
      r
  }

  /**
   The checks of one patch, in store order: each check of that patch as
   often as the store holds it, and no other check.
   */
  function ChecksOfPatch(checks: seq<Check>, patch: Id): (r: seq<Check>)
    ensures forall c :: multiset(r)[c] == if c.patch == patch then multiset(checks)[c] else 0
    ensures forall i :: 0 <= i < |r| ==> r[i].patch == patch
  {
    if |checks| == 0 then []
    else
      var rest := ChecksOfPatch(checks[1..], patch);
      assert checks == [checks[0]] + checks[1..];
      if checks[0].patch == patch then [checks[0]] + rest else rest
  }

  /**
   Item lookup by primary key in the endpoint's table. For checks the
   queryset is every check: the patch in the URL is not consulted.
   */
  function Lookup(s: Store, res: Resource, pk: Id): (r: Option<Obj>)
    ensures res.Projects? ==> (r.Some? <==> pk in s.projects)
    ensures res.Projects? && r.Some? ==> r.value == ProjectObj(s.projects[pk])
    ensures res.Patches? ==> (r.Some? <==> pk in s.patches)
    ensures res.Patches? && r.Some? ==> r.value == PatchObj(s.patches[pk])
    ensures res.People? ==> (r.Some? <==> pk in s.people)
    ensures res.People? && r.Some? ==> r.value == PersonObj(s.people[pk])
    ensures res.Checks? ==> (r.Some? <==> exists c :: c in s.checks && c.id == pk)
    ensures res.Checks? && r.Some? ==> r.value.CheckObj? && r.value.check in s.checks && r.value.check.id == pk
  {
    match res
    case Projects => if pk in s.projects then Some(ProjectObj(s.projects[pk])) else None
    case Patches => if pk in s.patches then Some(PatchObj(s.patches[pk])) else None
    case People => if pk in s.people then Some(PersonObj(s.people[pk])) else None
    case Checks(_) =>
      match FindCheck(s.checks, pk)
      case Some(c) => Some(CheckObj(c))
      case None => None
  }

  /** The patch with key `pk`, if the store holds one. */
  function PatchAt(s: Store, pk: Id): Option<Patch> {
    if pk in s.patches then Some(s.patches[pk]) else None
  }

  /**
   The permission target a route resolves to, when it resolves. A checks
   collection carries the patch its URL names, if there is one.
   */
  function Resolve(s: Store, res: Resource, route: Route): Option<Target> {
    match route
    case ListRoute =>
      (match res
       case Checks(patchPk) => Some(Collection(PatchAt(s, patchPk)))
       case _ => Some(Collection(None)))
    case DetailRoute(pk) =>
      match Lookup(s, res, pk)
      case Some(obj) => Some(Item(obj))
      case None => None
  }

  /** `list`: the filter map for the top-level tables, the patch's own checks for a checks route. */
  function List(s: Store, res: Resource, query: QueryParams): Response {
    match res
    case Checks(patchPk) => CheckListing(ChecksOfPatch(s.checks, patchPk))
    case _ => Listing(Translate(QueryFiltersOf(res), query))
  }

  /**
   `ChecksViewSet.create`: the parent patch gates the creation before the
   body is read; the check's patch and author come from the URL and the
   session, and it is appended to the store.
   */
  function CreateCheck(s: Store, parent: Patch, actor: Actor, body: Body,
                       editable: (Actor, Obj) -> bool): (o: Outcome)
    ensures !editable(actor, PatchObj(parent)) ==> o == Outcome(Forbidden, s)
    ensures o.response.Created? <==>
              editable(actor, PatchObj(parent)) && NewCheck(s.nextCheckId, parent.id, actor, body).Ok?
    ensures o.response.Created? ==>
              var c := o.response.check;
              && c.patch == parent.id && c.user == actor && c.id == s.nextCheckId
              && o.store == s.(checks := s.checks + [c], nextCheckId := s.nextCheckId + 1)
    ensures !o.response.Created? ==> o.store == s
  {
    if !editable(actor, PatchObj(parent)) then Outcome(Forbidden, s)
    else
      match NewCheck(s.nextCheckId, parent.id, actor, body)
      case Err(e) => Outcome(Invalid(e), s)
      case Ok(c) => Outcome(Created(c), s.(checks := s.checks + [c], nextCheckId := s.nextCheckId + 1))
  }

  /** `update` / `partial_update` of a project or patch row under key `pk`. */
  function ApplyUpdate(s: Store, pk: Id, obj: Obj, body: Body): (o: Outcome)
    requires obj.ProjectObj? || obj.PatchObj?
  {
    match obj
    case ProjectObj(p) =>
      (match UpdateProject(p, body)
       case Err(e) => Outcome(Invalid(e), s)
       case Ok(q) => Outcome(Updated(ProjectObj(q)), s.(projects := s.projects[pk := q])))
    case PatchObj(p) =>
      (match UpdatePatch(p, body)
       case Err(e) => Outcome(Invalid(e), s)
       case Ok(q) => Outcome(Updated(PatchObj(q)), s.(patches := s.patches[pk := q])))
  }

  /** One request against the store. */
  function Handle(s: Store, req: Request, editable: (Actor, Obj) -> bool): (o: Outcome)
    ensures !o.response.Created? && !o.response.Updated? ==> o.store == s
  {
    var res, m, actor := req.resource, req.verb, req.actor;
    var policy := PolicyOf(res);
    if !HasPermission(policy, m, actor) then Outcome(Forbidden, s)
    else if m == OPTIONS then Outcome(OptionsInfo, s)
    else match req.route
      case ListRoute =>
        if m == GET || m == HEAD then Outcome(List(s, res, req.query), s)
        else if m == POST then
          match res
          case Checks(patchPk) =>
            if patchPk in s.patches then CreateCheck(s, s.patches[patchPk], actor, req.body, editable)
            else Outcome(ServerError, s)
          case _ => assert false; Outcome(Forbidden, s)
        else Outcome(MethodNotAllowed, s)
      case DetailRoute(pk) =>
        if res.Checks? && IsModification(m) then Outcome(Forbidden, s)
        else if m == POST then Outcome(MethodNotAllowed, s)
        else match Lookup(s, res, pk)
          case None => Outcome(NotFound, s)
          case Some(obj) =>
            if !HasObjectPermission(policy, m, actor, obj, editable) then Outcome(Forbidden, s)
            else if m == GET || m == HEAD then Outcome(Retrieved(obj), s)
            else if (m == PUT || m == PATCH) && (res.Projects? || res.Patches?) then
              ApplyUpdate(s, pk, obj, req.body)
            else assert false; Outcome(Forbidden, s)
  }

  /**
   The endpoint refuses a request with Forbidden exactly when the
   permission decision for the object it resolved to is Deny.
   */
  lemma HandleAgreesWithDecide(s: Store, req: Request, editable: (Actor, Obj) -> bool, target: Target)
    requires Resolve(s, req.resource, req.route) == Some(target)
    ensures Handle(s, req, editable).response == Forbidden <==>
            Decide(req.resource, req.verb, req.actor, target, editable) == Deny
  {
  }

  /** DELETE is refused on every endpoint, to every actor, and removes nothing. */
  lemma DeleteChangesNothing(s: Store, req: Request, editable: (Actor, Obj) -> bool)
    requires req.verb == DELETE
    ensures Handle(s, req, editable).store == s
    ensures Handle(s, req, editable).response == Forbidden
            || (Handle(s, req, editable).response == MethodNotAllowed
                && req.resource.Checks? && req.route == ListRoute)
  {
  }

  /** If the anonymous actor can edit nothing, an anonymous request never changes the store. */
  lemma AnonymousChangesNothing(s: Store, req: Request, editable: (Actor, Obj) -> bool)
    requires req.actor == Anonymous
    requires forall o :: !editable(Anonymous, o)
    ensures Handle(s, req, editable).store == s
  {
  }

  /**
   A check is created only by a POST to a patch's checks collection from an
   actor who can edit that patch; it belongs to that patch, names the actor
   as its author, and is the only row added.
   */
  lemma CreatedCheckProvenance(s: Store, req: Request, editable: (Actor, Obj) -> bool)
    requires Handle(s, req, editable).response.Created?
    ensures req.resource.Checks? && req.route == ListRoute && req.verb == POST
    ensures req.resource.patchPk in s.patches
    ensures editable(req.actor, PatchObj(s.patches[req.resource.patchPk]))
    ensures var o := Handle(s, req, editable);
      && o.response.check.patch == s.patches[req.resource.patchPk].id
      && o.response.check.user == req.actor
      && o.store == s.(checks := s.checks + [o.response.check], nextCheckId := s.nextCheckId + 1)
  {
  }

  /**
   Only an actor who can edit a project or patch updates it, through PUT or
   PATCH on its item route, and only that row changes. A patch keeps its
   read-only fields.
   */
  lemma UpdateProvenance(s: Store, req: Request, editable: (Actor, Obj) -> bool)
    requires Handle(s, req, editable).response.Updated?
    ensures (req.resource.Projects? || req.resource.Patches?) && (req.verb == PUT || req.verb == PATCH)
    ensures req.route.DetailRoute? && Lookup(s, req.resource, req.route.pk).Some?
    ensures editable(req.actor, Lookup(s, req.resource, req.route.pk).value)
    ensures var o := Handle(s, req, editable);
      var pk := req.route.pk;
      && o.store.people == s.people && o.store.checks == s.checks
      && (req.resource.Projects? ==> o.store.patches == s.patches
                                     && o.store.projects == s.projects[pk := o.response.obj.project])
      && (req.resource.Patches? ==> o.store.projects == s.projects
                                    && o.store.patches == s.patches[pk := o.response.obj.patch])
    ensures req.resource.Patches? ==>
              var before := s.patches[req.route.pk];
              var after := Handle(s, req, editable).response.obj.patch;
              && after.project == before.project && after.name == before.name && after.date == before.date
              && after.submitter == before.submitter && after.diff == before.diff
              && after.content == before.content && after.hash == before.hash && after.msgid == before.msgid
  {
  }

  /** Listing a patch's checks yields that patch's checks and nothing else. */
  lemma CheckListingIsPatchChecks(s: Store, req: Request, editable: (Actor, Obj) -> bool)
    requires Handle(s, req, editable).response.CheckListing?
    ensures req.resource.Checks?
    ensures var listed := Handle(s, req, editable).response.checks;
      && (forall c :: c in listed ==> c.patch == req.resource.patchPk)
      && (forall c :: c in s.checks && c.patch == req.resource.patchPk ==> c in listed)
  {
  }

  /**
   A collection GET or HEAD on projects or people applies no filter; on
   patches it applies the translated query.
   */
  lemma ListingFilters(s: Store, req: Request, editable: (Actor, Obj) -> bool)
    requires req.route == ListRoute && (req.verb == GET || req.verb == HEAD)
    requires req.resource.Projects? || req.resource.Patches? || (req.resource.People? && req.actor.IsAuthenticated())
    ensures req.resource.Patches? ==>
              Handle(s, req, editable).response == Listing(Translate(PatchQueryFilters, req.query))
    ensures !req.resource.Patches? ==> Handle(s, req, editable).response == Listing(map[])
  {
    if !req.resource.Patches? {
      NoFiltersWithoutTable(req.resource, req.query);
    }
  }

  /**
   A checks URL whose patch key names no patch: the listing only filters by
   that key, so it is answered with the checks that carry it (none, when the
   store is consistent); a retrieval ignores the key; a creation fails in
   the patch lookup and changes nothing.
   */
  lemma UnknownPatchChecks(s: Store, req: Request, other: Id, editable: (Actor, Obj) -> bool)
    requires req.resource.Checks? && req.resource.patchPk !in s.patches
    ensures req.route == ListRoute && (req.verb == GET || req.verb == HEAD) ==>
              Handle(s, req, editable).response == CheckListing(ChecksOfPatch(s.checks, req.resource.patchPk))
    ensures req.route.DetailRoute? && (req.verb == GET || req.verb == HEAD) ==>
              Handle(s, req, editable).response ==
              Handle(s, req.(resource := Checks(other)), editable).response
    ensures req.route == ListRoute && req.verb == POST ==> Handle(s, req, editable) == Outcome(ServerError, s)
  {
  }
}

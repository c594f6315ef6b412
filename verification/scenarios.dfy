/**
 The REST API test cases as concrete requests against a small store: one
 project, one submitter, one patch, and two accounts, a maintainer of the
 project and a plain user. Which objects an actor can edit is left open
 except for what the tests rely on: the maintainer can edit the project
 and its patch, the plain user and the anonymous actor cannot. The field
 values are illustrative; the test fixtures that fix them are not part of
 this model.
 */
module Scenarios {
  import opened Entities
  import opened Permissions
  import opened Serializers
  import opened Endpoints

  const TheProject := Project(1, "test-project", "Test Project", "test.example.com", "test@example.com")
  const Submitter := Person(1, "Patch Author", "author@example.com")
  const ThePatch := Patch(1, 1, "test-patch", 100, 1, None, 1, "diff", "content", "hash", "<1@example.com>")

  const Maintainer := User(2, false)
  const SuperMaintainer := User(2, true)
  const PlainUser := User(3, false)

  const Fixture := Store(map[1 := TheProject], map[1 := ThePatch], map[1 := Submitter], [], 1)

  /** What the tests assume of `is_editable`. */
  predicate TestEditability(editable: (Actor, Obj) -> bool) {
    && editable(Maintainer, ProjectObj(TheProject))
    && editable(Maintainer, PatchObj(ThePatch))
    && editable(SuperMaintainer, ProjectObj(TheProject))
    && editable(SuperMaintainer, PatchObj(ThePatch))
    && !editable(PlainUser, ProjectObj(TheProject))
    && !editable(PlainUser, PatchObj(ThePatch))
    && !editable(Anonymous, ProjectObj(TheProject))
    && !editable(Anonymous, PatchObj(ThePatch))
  }

  function Ask(res: Resource, route: Route, verb: Method, actor: Actor, body: Body): Request {
    Request(res, route, verb, actor, [], body)
  }

  // ------------------------------------------------------------- projects

  lemma ProjectListAndGet(editable: (Actor, Obj) -> bool)
    ensures Handle(Fixture, Ask(Projects, ListRoute, GET, Anonymous, map[]), editable).response == Listing(map[])
    ensures Handle(Fixture, Ask(Projects, DetailRoute(1), GET, Anonymous, map[]), editable).response
            == Retrieved(ProjectObj(TheProject))
  {
    ListingFilters(Fixture, Ask(Projects, ListRoute, GET, Anonymous, map[]), editable);
  }

  lemma ProjectAnonymousWrites(editable: (Actor, Obj) -> bool)
    requires TestEditability(editable)
    ensures Handle(Fixture, Ask(Projects, ListRoute, POST, Anonymous,
                                map["linkname" := Text("l"), "name" := Text("n")]), editable).response == Forbidden
    ensures Handle(Fixture, Ask(Projects, DetailRoute(1), PATCH, Anonymous,
                                map["linkname" := Text("foo")]), editable).response == Forbidden
    ensures Handle(Fixture, Ask(Projects, DetailRoute(1), DELETE, Anonymous, map[]), editable).response == Forbidden
  {
  }

  /** Even a superuser maintainer can neither create nor delete a project. */
  lemma ProjectCreateAndDeleteRejected(editable: (Actor, Obj) -> bool)
    requires TestEditability(editable)
    ensures Handle(Fixture, Ask(Projects, ListRoute, POST, SuperMaintainer,
                                map["linkname" := Text("l"), "name" := Text("n")]), editable).response == Forbidden
    ensures var o := Handle(Fixture, Ask(Projects, DetailRoute(1), DELETE, SuperMaintainer, map[]), editable);
      o.response == Forbidden && o.store.projects == Fixture.projects
  {
  }

  lemma ProjectUpdate(editable: (Actor, Obj) -> bool)
    requires TestEditability(editable)
    ensures var o := Handle(Fixture, Ask(Projects, DetailRoute(1), PATCH, Maintainer,
                                         map["linkname" := Text("TEST")]), editable);
      o.response == Updated(ProjectObj(TheProject.(linkname := "TEST")))
      && o.store.projects[1].linkname == "TEST"
    ensures Handle(Fixture, Ask(Projects, DetailRoute(1), PATCH, PlainUser,
                                map["linkname" := Text("TEST")]), editable).response == Forbidden
  {
  }

  // --------------------------------------------------------------- people

  lemma PeopleNeedAuthentication(editable: (Actor, Obj) -> bool)
    ensures Handle(Fixture, Ask(People, ListRoute, GET, Anonymous, map[]), editable).response == Forbidden
    ensures Handle(Fixture, Ask(People, ListRoute, GET, PlainUser, map[]), editable).response == Listing(map[])
  {
    ListingFilters(Fixture, Ask(People, ListRoute, GET, PlainUser, map[]), editable);
  }

  lemma PeopleReadOnly(editable: (Actor, Obj) -> bool)
    ensures Handle(Fixture, Ask(People, DetailRoute(1), DELETE, SuperMaintainer, map[]), editable).response == Forbidden
    ensures Handle(Fixture, Ask(People, DetailRoute(1), PATCH, SuperMaintainer,
                                map["email" := Text("foo@f.com")]), editable).response == Forbidden
    ensures Handle(Fixture, Ask(People, ListRoute, POST, SuperMaintainer,
                                map["email" := Text("foo@f.com")]), editable).response == Forbidden
  {
  }

  // -------------------------------------------------------------- patches

  lemma PatchListAndGet(editable: (Actor, Obj) -> bool)
    ensures Handle(Fixture, Ask(Patches, ListRoute, GET, Anonymous, map[]), editable).response == Listing(map[])
    ensures Handle(Fixture, Ask(Patches, DetailRoute(1), GET, Anonymous, map[]), editable).response
            == Retrieved(PatchObj(ThePatch))
  {
  }

  lemma PatchAnonymousWrites(editable: (Actor, Obj) -> bool)
    requires TestEditability(editable)
    ensures Handle(Fixture, Ask(Patches, ListRoute, POST, Anonymous,
                                map["msgid" := Text("foo"), "name" := Text("this will should fail")]),
                   editable).response == Forbidden
    ensures Handle(Fixture, Ask(Patches, DetailRoute(1), PATCH, Anonymous,
                                map["name" := Text("foo")]), editable).response == Forbidden
    ensures Handle(Fixture, Ask(Patches, DetailRoute(1), DELETE, Anonymous, map[]), editable).response == Forbidden
  {
  }

  lemma PatchCreateAndDeleteRejected(editable: (Actor, Obj) -> bool)
    requires TestEditability(editable)
    ensures Handle(Fixture, Ask(Patches, ListRoute, POST, SuperMaintainer,
                                map["name" := Text("test-create-patch"), "diff" := Text("patch diff")]),
                   editable).response == Forbidden
    ensures var o := Handle(Fixture, Ask(Patches, DetailRoute(1), DELETE, SuperMaintainer, map[]), editable);
      o.response == Forbidden && o.store.patches == Fixture.patches
  {
  }

  /** A maintainer moves the patch to state 2; a plain user cannot. */
  lemma PatchUpdate(editable: (Actor, Obj) -> bool)
    requires TestEditability(editable)
    ensures var o := Handle(Fixture, Ask(Patches, DetailRoute(1), PATCH, Maintainer,
                                         map["state" := Ref(Some(2))]), editable);
      o.response == Updated(PatchObj(ThePatch.(state := 2))) && o.store.patches[1].state == 2
    ensures Handle(Fixture, Ask(Patches, DetailRoute(1), PATCH, PlainUser,
                                map["state" := Ref(Some(2))]), editable).response == Forbidden
  {
  }

  // --------------------------------------------------------------- checks

  const TheCheck := Check(1, 1, Maintainer, 2, "t", "d", "c")

  lemma ChecksListAndGet(editable: (Actor, Obj) -> bool)
    ensures Handle(Fixture, Ask(Checks(1), ListRoute, GET, Anonymous, map[]), editable).response
            == CheckListing([])
    ensures var s := Fixture.(checks := [TheCheck], nextCheckId := 2);
      && Handle(s, Ask(Checks(1), ListRoute, GET, Anonymous, map[]), editable).response
         == CheckListing([TheCheck])
      && Handle(s, Ask(Checks(1), DetailRoute(1), GET, Anonymous, map[]), editable).response
         == Retrieved(CheckObj(TheCheck))
  {
  }

  /** Not even a superuser maintainer may change or remove a check. */
  lemma ChecksUpdateDeleteRejected(editable: (Actor, Obj) -> bool)
    ensures var s := Fixture.(checks := [TheCheck], nextCheckId := 2);
      && Handle(s, Ask(Checks(1), DetailRoute(1), PATCH, SuperMaintainer,
                       map["target_url" := Text("fail")]), editable) == Outcome(Forbidden, s)
      && Handle(s, Ask(Checks(1), DetailRoute(1), DELETE, SuperMaintainer, map[]), editable)
         == Outcome(Forbidden, s)
  {
  }

  const CheckBody: Body := map[
    "state" := Number(0),
    "target_url" := Text("http://t.co"),
    "description" := Text("description"),
    "context" := Text("context")]

  /**
   The maintainer creates a check; it is attached to the patch in the URL
   and authored by the maintainer, even when the body names another patch
   and another user. The plain user is refused.
   */
  lemma ChecksCreate(editable: (Actor, Obj) -> bool)
    requires TestEditability(editable)
    ensures var o := Handle(Fixture, Ask(Checks(1), ListRoute, POST, Maintainer, CheckBody), editable);
      && o.response == Created(Check(1, 1, Maintainer, 0, "http://t.co", "description", "context"))
      && |o.store.checks| == 1
    ensures var forged := CheckBody["patch" := Ref(Some(7))]["user" := Ref(Some(3))];
      var o := Handle(Fixture, Ask(Checks(1), ListRoute, POST, Maintainer, forged), editable);
      o.response.Created? && o.response.check.patch == 1 && o.response.check.user == Maintainer
    ensures Handle(Fixture, Ask(Checks(1), ListRoute, POST, PlainUser, CheckBody), editable)
            == Outcome(Forbidden, Fixture)
  {
    var forged := CheckBody["patch" := Ref(Some(7))]["user" := Ref(Some(3))];
    NewCheckIgnoresAuthorship(1, 1, Maintainer, CheckBody, forged);
  }
}

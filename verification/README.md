# Patchwork REST API: permissions and request shaping

This project models the access-control and request-shaping layer of
patchwork's REST API (`patchwork/views/rest_api.py`). The API serves four
endpoints over the patch tracker's data: projects, people, patches, and
the CI checks nested under one patch. The model covers:

- **Permission policies.** `PatchworkPermission` guards projects and
  patches, and `AuthenticatedReadOnly` guards people. The checks endpoint
  has its own hard-coded refusals. `Permissions.Decide` composes them into
  one Allow/Deny answer, in the order Django REST framework asks:
  `has_permission` first, then the handler, then `has_object_permission`
  for an item route.
- **Query-parameter translation.** This is `get_queryset`: a per-endpoint
  table renames known query parameters to ORM lookups and drops the rest.
  It appears once as a recursive function (`QueryFilters.Translate`) and
  once as the source's loop (`QueryFilters.BuildFilters`).
- **Serializers.** These decide which request-body fields an update or a
  creation takes. A patch's eight read-only fields never change. A check's
  `patch` comes from the URL and its `user` from the session, never from
  the body.
- **Endpoint composition.** `Endpoints.Handle` takes one request against a
  store of rows. Lemmas relate it to `Decide` and prove several facts:
  DELETE never removes anything; an anonymous actor who can edit nothing
  changes nothing; only an editor updates; a check belongs to the URL's
  patch and names its creator.
- **Scenarios.** The API test cases are restated as concrete requests
  (`scenarios.dfy`).

Whether an actor may edit a project or patch (`is_editable`) lives in the
models, which are not part of this model. It is the parameter
`editable: (Actor, Obj) -> bool` everywhere. The scenarios assume only
what the tests rely on: a maintainer can edit, while a plain user and the
anonymous actor cannot.

The checks endpoint declares no `permission_classes`, so it runs under the
project-wide default permission. The settings that define that default are
not part of this model. The model treats it as the permissive base
behaviour, consistent with the anonymous check listing in
`patchwork/tests/test_rest_api.py:257-261`.

Retrieving a check by URL looks the key up among all checks. The patch
key in the nested URL is not consulted, because the check endpoint's
queryset is every check. `Endpoints.Lookup` models that as written.

## Model

| member | source | states |
|---|---|---|
| Permissions.Decide | patchwork/views/rest_api.py:43-161 | Projects and patches: POST and DELETE are denied to every actor. A collection route allows everything else. An item route allows a safe method for anyone, and any other method exactly when the actor can edit the object. People: allowed exactly when the actor is authenticated and the method is safe. Checks: update, partial update and destroy are always denied. Creation is denied exactly when the URL's patch exists and the actor cannot edit it; under a missing patch the permission layer does not refuse, the creation's lookup fails instead. |
| Permissions.SuperuserGrantsNothing | patchwork/views/rest_api.py:45-60 | Two actors with the same authentication status and the same editability get the same decision. Superuser status alone grants nothing. |
| QueryFilters.TranslateMeaning | patchwork/views/rest_api.py:69-76 | A lookup is in the filter map exactly when some parameter known to the table, with a non-empty lookup name, is renamed to it. Its value is that of the last such parameter. |
| QueryFilters.BuildFilters | patchwork/views/rest_api.py:69-76 | The source's loop over the query parameters builds the same map as the recursive definition. |
| QueryFilters.UnknownParameterDropped | patchwork/views/rest_api.py:72-75 | A parameter the table does not know can be inserted anywhere in the query without changing the filters. It is dropped, not rejected. |
| QueryFilters.NoFiltersWithoutTable | patchwork/views/rest_api.py:66-67 | Endpoints that inherit the empty table apply no filter, whatever the query. |
| QueryFilters.RenamedWithValue | patchwork/views/rest_api.py:72-75 | With an injective table and distinct parameter names, every known parameter appears under its ORM lookup with its value unchanged. |
| QueryFilters.PatchDateBounds | patchwork/views/rest_api.py:111-118 | For patches, `since` becomes the strict bound `date__gt` and `until` becomes `date__lt`, with their values. No lookup outside the patch table appears. |
| Serializers.UpdatePatch | patchwork/views/rest_api.py:107-109 | An update fails exactly when a writable field is ill-typed. On success, every writable field in the body is taken. Every read-only, unknown or absent field keeps its value. |
| Serializers.UpdatePatchKeepsReadOnly | patchwork/views/rest_api.py:107-109 | A successful update leaves `project`, `name`, `date`, `submitter`, `diff`, `content`, `hash`, `msgid` and the key unchanged. |
| Serializers.PatchWritableFields | patchwork/views/rest_api.py:107-109 | Of the modelled patch fields, the writable ones are exactly `state` and `delegate`. |
| Serializers.ReadOnlyBodyIsNoop | patchwork/views/rest_api.py:107-109 | A body naming only read-only or unknown fields leaves the patch as it was. |
| Serializers.UpdatePatchIdempotent | patchwork/views/rest_api.py:107-109 | Applying the same update twice gives the same patch as applying it once. |
| Serializers.UpdateProject | patchwork/views/rest_api.py:126-128 | A project update takes every writable field in the body and keeps the key and every absent field. It fails exactly when a writable field is not text, and the error names such a field. |
| Serializers.NewCheck | patchwork/views/rest_api.py:139-143 | A check is created exactly when the four input fields are present and well typed. Its patch is the URL's and its user is the session's. Its inputs are the body's values. |
| Serializers.NewCheckIgnoresAuthorship | patchwork/views/rest_api.py:131-143 | Bodies that agree on the four input fields create the same check, whatever they say about `user`, `patch` or `id`. |
| Endpoints.FindCheck | patchwork/views/rest_api.py:69-76 | The check found has the key asked for and is the first stored check with that key. None is found exactly when no stored check has that key. |
| Endpoints.Lookup | patchwork/views/rest_api.py:69-76 | An item route finds its object exactly when the endpoint's table holds the key, and returns the stored row. A check is looked up among all checks, whatever patch the URL names. |
| Endpoints.ChecksOfPatch | patchwork/views/rest_api.py:163-165 | The listing holds each check of the patch as many times as the store does, and no check of another patch. |
| Endpoints.CreateCheck | patchwork/views/rest_api.py:156-161 | An actor who cannot edit the parent patch is refused and nothing changes, whatever the body. Otherwise a valid body appends one check whose patch is the URL's and whose user is the actor. |
| Endpoints.Handle | patchwork/views/rest_api.py:146-165 | For every request, a response that is neither a creation nor an update leaves the store unchanged. |
| Endpoints.HandleAgreesWithDecide | patchwork/views/rest_api.py:43-60 | Once the route resolves, the endpoint answers Forbidden exactly when the permission decision is Deny. |
| Endpoints.DeleteChangesNothing | patchwork/views/rest_api.py:45-47 | DELETE leaves the store unchanged for every actor, a superuser included. It is answered Forbidden, or "method not allowed" on a checks collection. |
| Endpoints.AnonymousChangesNothing | patchwork/views/rest_api.py:50-60 | If the anonymous actor can edit nothing, no anonymous request changes the store. |
| Endpoints.CreatedCheckProvenance | patchwork/views/rest_api.py:156-161 | A check is created only by a POST to a checks collection whose patch exists, from an editor of that patch. It carries that patch and that actor, and it is the only row added. |
| Endpoints.UpdateProvenance | patchwork/views/rest_api.py:50-54 | Only an editor of a project or patch updates it, by PUT or PATCH on its item route. Only that row changes, and a patch keeps its eight read-only fields. |
| Endpoints.CheckListingIsPatchChecks | patchwork/views/rest_api.py:163-165 | Listing a patch's checks returns only checks of that patch, and every stored check of that patch. |
| Endpoints.UnknownPatchChecks | patchwork/views/rest_api.py:156-165 | Under a patch key that names no patch, a check listing still filters the stored checks by that key, a retrieval answers exactly as under every other key, and a creation fails in the patch lookup and changes nothing. |
| Endpoints.ListingFilters | patchwork/views/rest_api.py:69-76 | A project or people listing applies no filter. A patch listing applies the translated query. |
| Scenarios.ProjectListAndGet | patchwork/tests/test_rest_api.py:36-52 | An anonymous user lists projects unfiltered and retrieves project 1. |
| Scenarios.ProjectAnonymousWrites | patchwork/tests/test_rest_api.py:54-67 | Anonymous create, update and delete of a project are Forbidden. |
| Scenarios.ProjectCreateAndDeleteRejected | patchwork/tests/test_rest_api.py:69-109 | A superuser maintainer can neither create nor delete a project, and the projects stay as they were. |
| Scenarios.ProjectUpdate | patchwork/tests/test_rest_api.py:82-96 | A maintainer's PATCH of `linkname` is stored. A plain user's PATCH is Forbidden. |
| Scenarios.PeopleNeedAuthentication | patchwork/tests/test_rest_api.py:116-129 | An anonymous people listing is Forbidden. An authenticated one is an unfiltered listing. |
| Scenarios.PeopleReadOnly | patchwork/tests/test_rest_api.py:131-145 | Delete, update and create of people are Forbidden even to a superuser maintainer. |
| Scenarios.PatchListAndGet | patchwork/tests/test_rest_api.py:152-171 | Anonymous patch listing and retrieval succeed. |
| Scenarios.PatchAnonymousWrites | patchwork/tests/test_rest_api.py:173-190 | Anonymous create, update and delete of a patch are Forbidden. |
| Scenarios.PatchCreateAndDeleteRejected | patchwork/tests/test_rest_api.py:192-238 | A superuser maintainer can neither create nor delete a patch, and the patches stay as they were. |
| Scenarios.PatchUpdate | patchwork/tests/test_rest_api.py:210-226 | A maintainer moves the patch to state 2. A plain user is Forbidden. |
| Scenarios.ChecksListAndGet | patchwork/tests/test_rest_api.py:257-278 | A patch's check listing is empty, then holds the one check added. That check can be retrieved. |
| Scenarios.ChecksUpdateDeleteRejected | patchwork/tests/test_rest_api.py:285-299 | A superuser maintainer's PATCH and DELETE of a check are Forbidden, and the store is unchanged. |
| Scenarios.ChecksCreate | patchwork/tests/test_rest_api.py:301-318 | A maintainer's POST creates one check on the URL's patch, authored by the maintainer, even when the body names another patch and user. A plain user's POST is Forbidden. |

## Left out

- URL routing and the nested router (`patchwork/views/rest_api.py:187-200`): requests arrive already split into endpoint, route and method. The ENABLE_REST_API flag that registers the routes is also left out.
- Pagination (`patchwork/views/rest_api.py:37-40`): listings are the full, unpaginated result. The default page size is 30, overridable with the `page_size` query parameter.
- The `options` metadata that advertises the query filters (`patchwork/views/rest_api.py:78-84`): an OPTIONS request is answered with an opaque `OptionsInfo`.
- The mbox endpoint (`patchwork/views/rest_api.py:182-184`) and the combined check state endpoint (`patchwork/views/rest_api.py:176-179`): both call code in other modules, mbox rendering and `combined_check_state` in the models. Neither is part of this model.
- `is_editable`: it is the `editable` parameter. Its definition in the models is not part of this model.
- ORM filter evaluation: a project, person or patch listing is represented by the lookup map it applies (`Listing(filters)`), not by the rows it selects.
- Endpoints.Lookup: an item lookup is by key only. In the source, `get_object` first applies the translated query filters (`patchwork/views/rest_api.py:69-76`). So `GET /patches/1/?project=other` is "not found" in the source but `Retrieved` in the model.
- Endpoints.Handle: a creation under a patch key that names no patch ends in `ServerError`. The source's `Patch.objects.get` raises `Patch.DoesNotExist`, an ORM exception the framework does not turn into a response (`patchwork/views/rest_api.py:157`). The resulting error page is not modelled.
- Serializers.PatchWritableFields: the serializers set no `fields`, so they expose every field of their model. The models are not part of this model, and the records keep only the fields named by the views and the tests. In the source, any other patch field outside the read-only tuple would also be writable. A nullable `state` would also accept null. The same holds for project fields and the check's input fields.
- Serializers.UpdatePatch: PUT is treated like PATCH, as a partial update. The source's full update would also reject a body that lacks a required writable field.
- Serializers.UpdateProject: PUT is treated like PATCH here too. A PUT of `{"linkname": "x"}` on a project is an update in the model. The source's full update (`partial=False`) would reject it, because the required `name` is missing.
- Serializers.UpdateProject: body values arrive already parsed and typed. The framework's `CharField` normalisation is not modelled: trimming surrounding whitespace, coercing a number to a string, rejecting a blank value. The model stores a text value exactly as sent and rejects a number.
- Serializers.NewCheck: body values arrive already parsed and typed. The framework's `CharField` normalisation of `target_url`, `description` and `context` is not modelled: trimming, number-to-string coercion, blank rejection.
- Serializers.NewCheck: all four check input fields are treated as required. Their blank and default settings are in the models, which are not part of this model. The check's `state` is any integer, not limited to the model's choices.
- Database validation is left out: uniqueness (project `linkname`, patch `msgid`) and the existence of rows named by foreign keys (`state`, `delegate`).
- A validation failure names one field, where the framework reports every bad field.
- The framework's filter backends for listings: the settings that would configure them are not part of this model, so none is applied.
- HTTP details: status codes, response bodies, authentication and sessions. Outcomes are `Forbidden`, `NotFound`, `MethodNotAllowed`, `Invalid` or a success value. The acting identity is an input.

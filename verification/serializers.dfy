/**
 Field selection of the serializers: which request-body fields an update
 or a creation takes, and which it ignores. A body is a map from wire field
 name to value; names the serializer does not know are ignored, as are the
 read-only ones, whatever value they carry.

 - Patch: the eight fields fixed by `PatchViewSet` are read-only, and so
   is the primary key; of the modelled fields only `state` and `delegate`
   remain writable.
 - Project: every field but the primary key is writable.
 - Check: `patch` and `user` are never taken from the body; they come from
   the URL and from the session.
 */
module Serializers {
  import opened Entities

  type Body = map<string, FieldValue>

  // ---------------------------------------------------------------- Patch

  /** The read-only fields `PatchViewSet` hands to its serializer. */
  const PatchReadOnly: set<string> :=
    {"project", "name", "date", "submitter", "diff", "content", "hash", "msgid"}

  /** The wire form of one patch field; `None` for a name the serializer does not know. */
  function PatchField(p: Patch, f: string): Option<FieldValue> {
    if f == "id" then Some(Number(p.id))
    else if f == "project" then Some(Ref(Some(p.project)))
    else if f == "name" then Some(Text(p.name))
    else if f == "date" then Some(Number(p.date))
    else if f == "submitter" then Some(Ref(Some(p.submitter)))
    else if f == "delegate" then Some(Ref(p.delegate))
    else if f == "state" then Some(Ref(Some(p.state)))
    else if f == "diff" then Some(Text(p.diff))
    else if f == "content" then Some(Text(p.content))
    else if f == "hash" then Some(Text(p.hash))
    else if f == "msgid" then Some(Text(p.msgid))
    else None
  }

  /** The fields of the patch model the serializer exposes. */
  const PatchFields: set<string> :=
    {"id", "project", "name", "date", "submitter", "delegate", "state", "diff", "content", "hash", "msgid"}

  /** A field an update takes from the body: a model field, not read-only, not the primary key. */
  predicate IsPatchWritable(f: string) {
    f in PatchFields && f !in PatchReadOnly && f != "id"
  }

  /** `state` must name a state row; `delegate` may be null. */
  predicate ValidPatchValue(f: string, v: FieldValue) {
    if f == "state" then v.Ref? && v.ref.Some?
    else if f == "delegate" then v.Ref?
    else false
  }

  /**
   A (partial) update of a patch. It fails exactly when a writable field
   carries an ill-typed value; otherwise every writable field in the body is
   taken, and every other field, read-only, unknown or absent, keeps its value.
   */
  function UpdatePatch(p: Patch, body: Body): (r: Result<Patch>)
    ensures r.Ok? <==> forall f :: f in body && IsPatchWritable(f) ==> ValidPatchValue(f, body[f])
    ensures r.Err? ==> var f := r.error.field;
              f in body && IsPatchWritable(f) && !ValidPatchValue(f, body[f])
    ensures r.Ok? ==> forall f :: !IsPatchWritable(f) ==> PatchField(r.value, f) == PatchField(p, f)
    ensures r.Ok? ==> forall f :: f !in body ==> PatchField(r.value, f) == PatchField(p, f)
    ensures r.Ok? ==> forall f :: f in body && IsPatchWritable(f) ==> PatchField(r.value, f) == Some(body[f])
  {
    if "state" in body && !ValidPatchValue("state", body["state"]) then
      Err(ValidationError("state"))
    else if "delegate" in body && !ValidPatchValue("delegate", body["delegate"]) then
      Err(ValidationError("delegate"))
    else
      Ok(p.(
        state := if "state" in body then body["state"].ref.value else p.state,
        delegate := if "delegate" in body then body["delegate"].ref else p.delegate))
  }

  /** The eight read-only fields, and the key, survive every successful update. */
  lemma UpdatePatchKeepsReadOnly(p: Patch, body: Body)
    requires UpdatePatch(p, body).Ok?
    ensures var q := UpdatePatch(p, body).value;
      && q.id == p.id && q.project == p.project && q.name == p.name && q.date == p.date
      && q.submitter == p.submitter && q.diff == p.diff && q.content == p.content
      && q.hash == p.hash && q.msgid == p.msgid
  {
  }

  /** Only `state` and `delegate` are writable. */
  lemma PatchWritableFields(f: string)
    ensures IsPatchWritable(f) <==> f == "state" || f == "delegate"
  {
  }

  /** A body that names only read-only or unknown fields leaves the patch as it was. */
  lemma ReadOnlyBodyIsNoop(p: Patch, body: Body)
    requires forall f :: f in body ==> !IsPatchWritable(f)
    ensures UpdatePatch(p, body) == Ok(p)
  {
  }

  /** Applying the same update twice is applying it once. */
  lemma UpdatePatchIdempotent(p: Patch, body: Body)
    requires UpdatePatch(p, body).Ok?
    ensures UpdatePatch(UpdatePatch(p, body).value, body) == UpdatePatch(p, body)
  {
  }

  // -------------------------------------------------------------- Project

  /** The wire form of one project field. */
  function ProjectField(p: Project, f: string): Option<FieldValue> {
    if f == "id" then Some(Number(p.id))
    else if f == "linkname" then Some(Text(p.linkname))
    else if f == "name" then Some(Text(p.name))
    else if f == "listid" then Some(Text(p.listid))
    else if f == "listemail" then Some(Text(p.listemail))
    else None
  }

  /** The project serializer declares no read-only fields: only the key is protected. */
  predicate IsProjectWritable(f: string) {
    f == "linkname" || f == "name" || f == "listid" || f == "listemail"
  }

  /** A (partial) update of a project: every writable field in the body must be text and is taken. */
  function UpdateProject(p: Project, body: Body): (r: Result<Project>)
    ensures r.Ok? <==> forall f :: f in body && IsProjectWritable(f) ==> body[f].Text?
    ensures r.Err? ==> r.error.field in body && IsProjectWritable(r.error.field) && !body[r.error.field].Text?
    ensures r.Ok? ==> r.value.id == p.id
    ensures r.Ok? ==> forall f :: f !in body ==> ProjectField(r.value, f) == ProjectField(p, f)
    ensures r.Ok? ==> forall f :: f in body && IsProjectWritable(f) ==> ProjectField(r.value, f) == Some(body[f])
  {
    if "linkname" in body && !body["linkname"].Text? then Err(ValidationError("linkname"))
    else if "name" in body && !body["name"].Text? then Err(ValidationError("name"))
    else if "listid" in body && !body["listid"].Text? then Err(ValidationError("listid"))
    else if "listemail" in body && !body["listemail"].Text? then Err(ValidationError("listemail"))
    else
      Ok(p.(
        linkname := if "linkname" in body then body["linkname"].text else p.linkname,
        name := if "name" in body then body["name"].text else p.name,
        listid := if "listid" in body then body["listid"].text else p.listid,
        listemail := if "listemail" in body then body["listemail"].text else p.listemail))
  }

  // ---------------------------------------------------------------- Check

  /** The wire form of one check field; an anonymous author serializes as a null key. */
  function CheckField(c: Check, f: string): Option<FieldValue> {
    if f == "id" then Some(Number(c.id))
    else if f == "patch" then Some(Ref(Some(c.patch)))
    else if f == "user" then Some(Ref(if c.user.User? then Some(c.user.id) else None))
    else if f == "state" then Some(Number(c.state))
    else if f == "target_url" then Some(Text(c.targetUrl))
    else if f == "description" then Some(Text(c.description))
    else if f == "context" then Some(Text(c.context))
    else None
  }

  /** The fields a creation reads from the body; `id`, `user` and `patch` are not among them. */
  predicate IsCheckInput(f: string) {
    f == "state" || f == "target_url" || f == "description" || f == "context"
  }

  predicate ValidCheckValue(f: string, v: FieldValue) {
    if f == "state" then v.Number? else v.Text?
  }

  /** A check input field is present and well typed. */
  predicate Supplied(body: Body, f: string) {
    f in body && ValidCheckValue(f, body[f])
  }

  /**
   `ChecksSerializer` creating a check: the four input fields come from the
   body, `patch` from the URL (`CurrentPatchDefault`), `user` from the
   session (`CurrentUserDefault`), and the key from the store.
   */
  function NewCheck(id: Id, patch: Id, user: Actor, body: Body): (r: Result<Check>)
    ensures r.Ok? <==> forall f :: IsCheckInput(f) ==> Supplied(body, f)
    ensures r.Err? ==> IsCheckInput(r.error.field) && !Supplied(body, r.error.field)
    ensures r.Ok? ==> r.value.id == id && r.value.patch == patch && r.value.user == user
    ensures r.Ok? ==> forall f :: IsCheckInput(f) ==> CheckField(r.value, f) == Some(body[f])
  {
    if !Supplied(body, "state") then Err(ValidationError("state"))
    else if !Supplied(body, "target_url") then Err(ValidationError("target_url"))
    else if !Supplied(body, "description") then Err(ValidationError("description"))
    else if !Supplied(body, "context") then Err(ValidationError("context"))
    else
      Ok(Check(id, patch, user, body["state"].number, body["target_url"].text,
               body["description"].text, body["context"].text))
  }

  /**
   Whatever a body says about `user`, `patch` or `id`, or any other field the
   serializer does not read, the created check is the same.
   */
  lemma NewCheckIgnoresAuthorship(id: Id, patch: Id, user: Actor, body: Body, forged: Body)
    requires forall f :: IsCheckInput(f) ==> (f in body <==> f in forged)
    requires forall f :: IsCheckInput(f) && f in body ==> body[f] == forged[f]
    ensures NewCheck(id, patch, user, body) == NewCheck(id, patch, user, forged)
  {
  }
}

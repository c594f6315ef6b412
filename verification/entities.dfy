/**
 The records behind the patchwork REST API: projects, people, patches and
 CI checks, the acting user of a request, and the wire values a request
 body carries. The ORM, the database and `models.py` are not part of this
 model. The serializers expose every field of their model; the records here
 keep the fields the REST views name and the test cases use, and no
 others.
 */
module Entities {

  datatype Option<+T> = None | Some(value: T)

  /** A request body that fails field validation, naming the first bad field. */
  datatype Error = ValidationError(field: string)

  datatype Result<+T> = Ok(value: T) | Err(error: Error)

  /** Primary keys of the ORM rows. */
  type Id = nat

  /** The identity the authentication layer attaches to a request. */
  datatype Actor =
    | Anonymous
    | User(id: Id, isSuperuser: bool)
  {
    /** Django's `user.is_authenticated()`: every real account, superuser or not. */
    predicate IsAuthenticated() {
      User?
    }
  }

  datatype Project = Project(
    id: Id,
    linkname: string,
    name: string,
    listid: string,
    listemail: string)

  datatype Person = Person(id: Id, name: string, email: string)

  /** `state` is the key of a workflow-state row; `delegate` is a nullable user key. */
  datatype Patch = Patch(
    id: Id,
    project: Id,
    name: string,
    date: int,
    submitter: Id,
    delegate: Option<Id>,
    state: Id,
    diff: string,
    content: string,
    hash: string,
    msgid: string)

  /** A CI result attached to one patch; `user` is who recorded it. */
  datatype Check = Check(
    id: Id,
    patch: Id,
    user: Actor,
    state: int,
    targetUrl: string,
    description: string,
    context: string)

  /** The object an item route resolves to. */
  datatype Obj =
    | ProjectObj(project: Project)
    | PatchObj(patch: Patch)
    | PersonObj(person: Person)
    | CheckObj(check: Check)

  /** One field value of a request body or of a serialized record. */
  datatype FieldValue =
    | Text(text: string)
    | Number(number: int)
    | Ref(ref: Option<Id>)
}

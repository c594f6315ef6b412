/**
 The permission layer of the REST API. Each endpoint carries a policy;
 Django REST framework asks the policy's `has_permission` before any
 handler runs and `has_object_permission` once an item route has looked its
 object up. The checks endpoint adds hard-coded refusals in its handlers.
 `Decide` composes these in that order into one Allow/Deny answer.

 Whether an actor may edit a project or patch (`is_editable`) is decided by
 the models, which are not part of this model: it is the parameter
 `editable`.
 */
module Permissions {
  import opened Entities

  datatype Method = GET | HEAD | OPTIONS | POST | PUT | PATCH | DELETE

  /** Django REST framework's SAFE_METHODS. */
  predicate IsSafe(m: Method) {
    m == GET || m == HEAD || m == OPTIONS
  }

  /** The methods the checks endpoint routes to `not_allowed`. */
  predicate IsModification(m: Method) {
    m == PUT || m == PATCH || m == DELETE
  }

  datatype Policy =
    | MaintainerEditable      // PatchworkPermission
    | AuthenticatedReadOnly   // AuthenticatedReadOnly
    | DefaultPolicy           // BasePermission: the checks endpoint sets no policy

  /** The endpoints; a checks request is nested under the patch key its URL names. */
  datatype Resource = Projects | Patches | People | Checks(patchPk: Id)

  /**
   A collection route, or an item route with the object it resolved to. A
   checks collection carries the patch its URL names, when that patch exists;
   a top-level collection has no parent.
   */
  datatype Target = Collection(parent: Option<Patch>) | Item(obj: Obj)

  datatype Decision = Allow | Deny

  function PolicyOf(res: Resource): Policy {
    match res
    case Projects => MaintainerEditable
    case Patches => MaintainerEditable
    case People => AuthenticatedReadOnly
    case Checks(_) => DefaultPolicy
  }

  /** The view-level question, asked before any object is looked up. */
  function HasPermission(policy: Policy, m: Method, actor: Actor): bool
  {
    match policy
    case MaintainerEditable =>
      if m == POST || m == DELETE then false else true
    case AuthenticatedReadOnly =>
      actor.IsAuthenticated() && IsSafe(m)
    case DefaultPolicy =>
      true
  }

  /** The object-level question; only PatchworkPermission overrides the permissive default. */
  function HasObjectPermission(policy: Policy, m: Method, actor: Actor, obj: Obj,
                               editable: (Actor, Obj) -> bool): bool
  {
    match policy
    case MaintainerEditable =>
      if IsSafe(m) then true else editable(actor, obj)
    case AuthenticatedReadOnly =>
      true
    case DefaultPolicy =>
      true
  }

  /**
   The permission outcome of one request: the view-level check, then the
   checks endpoint's handler refusals (creation gated on the parent patch,
   updates and deletions always refused), then the object-level check for an
   item route. A permitted request whose route has no handler for the method
   is still Allow here; the endpoint answers it with "method not allowed".
   So is a creation under a patch key that names no patch: the permission
   layer does not refuse it, the creation handler's lookup fails first.
   */
  function Decide(res: Resource, m: Method, actor: Actor, target: Target,
                  editable: (Actor, Obj) -> bool): (d: Decision)
    // Projects and patches: never created or deleted, by anyone
    ensures (res.Projects? || res.Patches?) && (m == POST || m == DELETE) ==> d == Deny
    ensures (res.Projects? || res.Patches?) && target.Collection? ==>
              (d == Allow <==> m != POST && m != DELETE)
    ensures (res.Projects? || res.Patches?) && target.Item? && m != POST && m != DELETE ==>
              (d == Allow <==> IsSafe(m) || editable(actor, target.obj))
    // People: authenticated reads only
    ensures res.People? ==> (d == Allow <==> actor.IsAuthenticated() && IsSafe(m))
    // Checks: creation gated on the URL's patch; never updated or deleted
    ensures res.Checks? && target.Collection? ==>
              (d == Allow <==> m != POST || target.parent.None? || editable(actor, PatchObj(target.parent.value)))
    ensures res.Checks? && target.Item? ==> (d == Allow <==> !IsModification(m))
  {
    var policy := PolicyOf(res);
    if !HasPermission(policy, m, actor) then Deny
    else match (res, target)
      case (Checks(_), Collection(Some(parent))) =>
        if m == POST && !editable(actor, PatchObj(parent)) then Deny else Allow
      case (Checks(_), Item(obj)) =>
        if IsModification(m) then Deny
        else if HasObjectPermission(policy, m, actor, obj, editable) then Allow else Deny
      case (_, Collection(_)) =>
        Allow
      case (_, Item(obj)) =>
        if HasObjectPermission(policy, m, actor, obj, editable) then Allow else Deny
  }

  /**
   Superuser status never enters a decision: two actors with the same
   authentication status and the same editability get the same answer.
   */
  lemma SuperuserGrantsNothing(res: Resource, m: Method, a: Actor, b: Actor, target: Target,
                               editable: (Actor, Obj) -> bool)
    requires a.IsAuthenticated() == b.IsAuthenticated()
    requires forall o :: editable(a, o) == editable(b, o)
    ensures Decide(res, m, a, target, editable) == Decide(res, m, b, target, editable)
  {
  }
}

/** The permission checks of the route handlers (app.py:153-157, 180-182, 243, 296,
    413, 420, 457), as predicates over the acting account. */
module Policy {
  import opened Types

  /** Depth in the staff hierarchy: admin, then organizer, then reseller; customers
      sit below every staff role. */
  function Rank(r: Role): nat
  {
    match r
    case Admin => 0
    case Organizer => 1
    case Reseller => 2
    case Customer => 3
  }

  /** create_staff: an admin creates organizers, an organizer creates resellers. */
  function MayCreateStaff(actor: Role, newRole: Role): (ok: bool)
    ensures ok ==> Rank(newRole) == Rank(actor) + 1 && newRole != Customer
    ensures actor == Reseller || actor == Customer ==> !ok
  {
    (actor == Admin && newRole == Organizer) || (actor == Organizer && newRole == Reseller)
  }

  /** manage_user: an admin manages organizers; an organizer manages only the
      resellers whose parent is its own wallet. */
  function MayManage(actorAddress: Address, actor: Account, target: Account): (ok: bool)
    ensures ok ==> Rank(target.role) == Rank(actor.role) + 1
    ensures ok ==> MayCreateStaff(actor.role, target.role)
    ensures ok && actor.role == Organizer ==> target.parent == Some(actorAddress)
    ensures target.role == Admin || target.role == Customer ==> !ok
    ensures actor.role == Admin && target.role == Organizer ==> ok
    ensures actor.role == Organizer && target.role == Reseller && target.parent == Some(actorAddress) ==> ok
  {
    (actor.role == Admin && target.role == Organizer)
    || (actor.role == Organizer && target.role == Reseller && target.parent == Some(actorAddress))
  }

  /** bulk_acquire's hierarchy check: the event's creator is the reseller's parent. */
  function FromParent(actor: Account, ev: Event): (ok: bool)
    ensures ok <==> actor.parent == Some(ev.creator)
    ensures actor.parent == None ==> !ok
  {
    Some(ev.creator) == actor.parent
  }

  /** bulk_list's cap check: refused exactly when the price is above the cap. */
  function WithinCap(ev: Event, price: Money): (ok: bool)
    ensures ok <==> price <= ev.cap
  {
    !(price > ev.cap)
  }
}

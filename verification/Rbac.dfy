/** Role scopes: which rows a caller may write, and how new rows are stamped. */
module Rbac {
  import opened Basics

  datatype Principal = Principal(role: string, location: Option<Id>, school: Option<Id>)

  datatype Role = Founder | Manager | Facilitator

  datatype Scope = Scope(role: Role, location: Option<Id>, school: Option<Id>)

  predicate Filled(id: Option<Id>) {
    id.Some? && id.value != ""
  }

  /** `Scope.derive`: `None` is the authorization error. */
  function Derive(p: Principal): (r: Option<Scope>)
    ensures r.Some? ==> WellDerived(r.value)
    ensures r.None? <==> !(p.role == "founder"
                           || (p.role == "manager" && Filled(p.location))
                           || (p.role == "facilitator" && Filled(p.location) && Filled(p.school)))
  {
    if p.role == "founder" then Some(Scope(Founder, None, None))
    else if p.role == "manager" then
      if !Filled(p.location) then None else Some(Scope(Manager, p.location, None))
    else if p.role == "facilitator" then
      if !Filled(p.location) || !Filled(p.school) then None else Some(Scope(Facilitator, p.location, p.school))
    else None
  }

  /** The shape every derived scope has. */
  predicate WellDerived(s: Scope) {
    match s.role
    case Founder => s.location.None? && s.school.None?
    case Manager => s.location.Some? && s.school.None?
    case Facilitator => s.location.Some? && s.school.Some?
  }

  /** `assert_can_write`: false is the authorization error. */
  predicate CanWrite(s: Scope, location: Option<Id>, school: Option<Id>) {
    s.role.Founder? || (location == s.location && (s.role.Facilitator? ==> school == s.school))
  }

  /** `stamp`: the location and school a new row is given. */
  function Stamp(s: Scope, location: Option<Id>, school: Option<Id>): (Option<Id>, Option<Id>) {
    (if s.location.Some? then s.location else location,
     if s.role.Facilitator? && s.school.Some? then s.school else school)
  }

  /** A new row carrying its stamp is always inside the scope that stamped it. */
  lemma StampedIsWritable(s: Scope, location: Option<Id>, school: Option<Id>)
    requires WellDerived(s)
    ensures CanWrite(s, Stamp(s, location, school).0, Stamp(s, location, school).1)
  {
  }

  /** Filling in a missing school never takes a write permission away. */
  lemma CanWriteMonotone(s: Scope, location: Option<Id>, before: Option<Id>, after: Option<Id>)
    requires WellDerived(s) && CanWrite(s, location, before)
    requires before.Some? ==> after == before
    ensures CanWrite(s, location, after)
  {
  }
}

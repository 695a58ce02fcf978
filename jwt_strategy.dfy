/**
 * The bearer-token check (jwt.strategy.ts): after the signature and expiry of a
 * token are checked, its subject is looked up and must be an active admin.
 */
module JwtStrategy {
  import opened Wrappers
  import opened HttpErrors
  import opened Store
  import AuthService

  /** What `validate` returns and the guards see as `request.user`: the subject, then the selected admin fields. */
  datatype Principal = Principal(sub: nat, id: nat, email: string, username: string, fullName: string, role: string, isActive: bool)

  /** `validate(payload)`: the admin named by `payload.sub`, if it exists and is active. */
  function Validate(admins: seq<Admin>, sub: nat): (r: Result<Principal, Thrown>)
    ensures r.Failure? ==> r.error == Unauthorized("Invalid token or user is inactive")
    ensures r.Success? ==> r.value.sub == r.value.id == sub && r.value.isActive
    ensures r.Success? ==>
      exists i :: 0 <= i < |admins| && admins[i].id == sub && admins[i].isActive
        && r.value == Principal(sub, sub, admins[i].email, admins[i].username, admins[i].fullName, admins[i].role, true)
  {
    var admin := AdminById(admins, sub);
    if admin.None? || !admin.value.isActive then Failure(Unauthorized("Invalid token or user is inactive"))
    else
      var a := admin.value;
      Success(Principal(a.id, a.id, a.email, a.username, a.fullName, a.role, a.isActive))
  }

  /**
   * With unique ids, the subject of a token issued to an admin validates exactly
   * while that admin is active, and yields its fields and never its password.
   */
  lemma ValidateIssued(admins: seq<Admin>, nextId: nat, i: nat)
    requires AdminsUnique(admins, nextId) && i < |admins|
    ensures var a := admins[i];
      Validate(admins, AuthService.Claims(a.id, a.email, a.role).sub)
        == if a.isActive then Success(Principal(a.id, a.id, a.email, a.username, a.fullName, a.role, true))
           else Failure(Unauthorized("Invalid token or user is inactive"))
  {
    var r := AdminById(admins, admins[i].id);
    var j :| 0 <= j < |admins| && admins[j] == r.value;
    assert j == i;
  }

  /** A subject no admin has is refused. */
  lemma UnknownSubject(admins: seq<Admin>, sub: nat)
    requires forall i :: 0 <= i < |admins| ==> admins[i].id != sub
    ensures Validate(admins, sub) == Failure(Unauthorized("Invalid token or user is inactive"))
  {
  }

  /** The principal is the profile with the subject in front: the same id, e-mail, username, name, role and activity. */
  lemma PrincipalIsProfile(admins: seq<Admin>, sub: nat)
    ensures var r, p := Validate(admins, sub), AuthService.GetProfile(admins, sub);
      (r.Success? <==> p.Success?)
      && (r.Success? ==> r.value == Principal(p.value.id, p.value.id, p.value.email, p.value.username, p.value.fullName, p.value.role, p.value.isActive))
  {
  }
}

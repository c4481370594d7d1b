/** The role rule applied at login: only college addresses are admitted, and the
    role follows from the (lower-cased) address by a fixed priority of rules. */
module Roles {
  import opened Strings

  const CollegeDomain := "@bmsce.ac.in"

  datatype Role = Principal | Hod | Admin | Student | User

  /** Forbidden is the 403 answer; otherwise the lower-cased address and its role. */
  datatype LoginOutcome = Forbidden | LoggedIn(email: string, role: Role)

  /** The first matching rule wins: "principal", "hod" and "admin" as prefixes, then
      "student" anywhere in the address, and "user" when nothing matched. */
  function RoleFor(email: string): (r: Role)
    ensures r == Principal <==> StartsWith(email, "principal")
    ensures r == Hod <==> !StartsWith(email, "principal") && StartsWith(email, "hod")
    ensures r == Admin <==>
      !StartsWith(email, "principal") && !StartsWith(email, "hod") && StartsWith(email, "admin")
    ensures r == Student <==>
      !StartsWith(email, "principal") && !StartsWith(email, "hod") && !StartsWith(email, "admin")
      && Occurs("student", email)
    ensures r == User <==>
      !StartsWith(email, "principal") && !StartsWith(email, "hod") && !StartsWith(email, "admin")
      && !Occurs("student", email)
  {
    ContainsIsOccurs(email, "student");
    if StartsWith(email, "principal") then Principal
    else if StartsWith(email, "hod") then Hod
    else if StartsWith(email, "admin") then Admin
    else if Contains(email, "student") then Student
    else User
  }

  /** The login decision for a submitted address (the insert into the user table is
      left to the caller). */
  function Login(email: string): (r: LoginOutcome)
    ensures r.Forbidden? <==> !EndsWith(Lower(email), CollegeDomain)
    ensures r.LoggedIn? ==> r.email == Lower(email) && r.role == RoleFor(Lower(email))
  {
    var e := Lower(email);
    if !EndsWith(e, CollegeDomain) then Forbidden else LoggedIn(e, RoleFor(e))
  }

  /** Logging in ignores letter case in the submitted address. */
  lemma LoginIgnoresCase(email: string)
    ensures Login(Lower(email)) == Login(email)
  {
    assert Lower(Lower(email)) == Lower(email);
  }

  /** The principal prefix outranks a "student" elsewhere in the address. */
  lemma PrincipalOutranksStudent()
    ensures Login("principal" + ".student" + CollegeDomain) == LoggedIn("principal" + ".student" + CollegeDomain, Principal)
  {
    var a, b, c := "principal", ".student", CollegeDomain;
    assert Lower(a) == a;
    assert Lower(b) == b;
    assert Lower(c) == c;
    LowerAppend(a, b);
    LowerAppend(a + b, c);
    var e := a + b + c;
    assert e[..|a|] == a;
    assert e[|e| - |c|..] == c;
  }

  /** An address outside the college domain is refused, whatever its local part. */
  lemma OtherDomainsAreForbidden()
    ensures Login("hod@gmail.com") == Forbidden
  {
    var e := "hod@gmail.com";
    assert Lower(e) == e;
    assert |e| - |CollegeDomain| == 1;
    assert e[1..][0] == 'o' != CollegeDomain[0];
    assert !EndsWith(e, CollegeDomain);
  }
}

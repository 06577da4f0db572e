/** `adminController.ts`: the organisation's user list for administrators. */
module AdminUsers {
  import opened Common
  import opened Store
  import opened AuthGuard
  import Users

  /** The selected columns: id, names, e-mail, role, and the two flags. */
  datatype UserView = UserView(id: nat, firstName: string, lastName: string, email: string, role: string,
                               isActive: bool, isVerified: bool)

  function View(u: User): UserView {
    UserView(u.id, u.firstName, u.lastName, u.email, StorageName(u.role), u.isActive, u.isVerified)
  }

  /** `getUsers`: a read-only query; a missing organisation id is a 401 that
      the catch turns into 500. */
  function GetUsers(users: seq<User>, ctx: Option<Principal>): (r: Reply<seq<UserView>>)
    ensures CustomerIdOf(ctx).None? <==> r == Err(500, "Failed to fetch users")
    ensures r.Ok? ==> r.status == 200 && |r.body| == |Users.Members(users, CustomerIdOf(ctx).value)|
    ensures r.Ok? ==> forall i :: 0 <= i < |r.body| ==>
      exists j :: 0 <= j < |users| && users[j].customerId == CustomerIdOf(ctx).value && r.body[i] == View(users[j])
    ensures r.Ok? ==> forall j :: 0 <= j < |users| && users[j].customerId == CustomerIdOf(ctx).value ==>
      View(users[j]) in r.body
  {
    match CustomerIdOf(ctx)
    case None => Err(500, "Failed to fetch users")
    case Some(c) =>
      var members := Users.Members(users, c);
      var body := seq(|members|, i requires 0 <= i < |members| => View(members[i]));
      assert forall j :: 0 <= j < |users| && users[j].customerId == c ==> View(users[j]) in body by {
        forall j | 0 <= j < |users| && users[j].customerId == c ensures View(users[j]) in body {
          var i :| 0 <= i < |members| && members[i] == users[j];
          assert body[i] == View(users[j]);
        }
      }
      Ok(200, body)
  }

  /** The administrators' list and the member list show the same users in
      the same order, the latter with one more column. */
  lemma {:induction false} SameUsersAsMemberList(users: seq<User>, ctx: Option<Principal>)
    requires CustomerIdOf(ctx).Some?
    ensures var a := GetUsers(users, ctx).body;
      var m := Users.GetAllUsers(users, ctx).body;
      && |a| == |m|
      && forall i :: 0 <= i < |a| ==>
           a[i].id == m[i].id && a[i].email == m[i].email && a[i].role == m[i].role && a[i].isVerified == m[i].isVerified
  {
  }
}

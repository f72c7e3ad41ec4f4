/** What the two controllers share: the user collection behind `userService`
    (backend/services/user-service.js) and the shape of an HTTP reply. */
module Server {
  import opened Common

  /** A stored user. `name` and `avatar` are unset until activation. */
  datatype User = User(id: nat, phone: string, name: Option<string>, avatar: Option<string>, activated: bool)

  /** The claims handed to `tokenService.generateTokens`. */
  datatype Claims = Claims(id: nat, activated: bool)

  datatype Cookie = Cookie(name: string, maxAge: nat, httpOnly: bool)

  datatype Body =
    | Message(text: string)
    | OtpSent(hash: string, phone: Option<string>, otp: string)
    | Authenticated(tokensFor: Claims, user: User)
    | ActivatedUser(user: User, auth: bool)

  /** One call of `res.json`, with the status and cookie set before it. */
  datatype Reply = Reply(status: nat, body: Body, cookie: Option<Cookie>)

  function Json(status: nat, body: Body): Reply {
    Reply(status, body, None)
  }

  /** A string field of `req.body` that JavaScript treats as true: present
      and not empty. Body fields are modelled as strings or absent. */
  predicate Present(field: Option<string>): (b: bool)
    ensures b <==> field != None && field != Some("")
  {
    field.Some? && field.value != ""
  }

  /** The user collection. Records are kept in creation order and a record's
      id is its position. */
  class UserStore {
    var users: seq<User>

    ghost predicate Valid()
      reads this
    {
      forall i :: 0 <= i < |users| ==> users[i].id == i
    }

    constructor ()
      ensures Valid() && users == []
    {
      users := [];
    }

    /** `findUser({ phone })`: the first record with that phone. */
    method FindByPhone(phone: string) returns (u: Option<User>)
      requires Valid()
      ensures u.None? <==> forall i :: 0 <= i < |users| ==> users[i].phone != phone
      ensures u.Some? ==> u.value in users && u.value.phone == phone
      ensures u.Some? ==> u.value.id < |users| && users[u.value.id] == u.value
                          && forall k :: 0 <= k < u.value.id ==> users[k].phone != phone
    {
      var i := 0;
      while i < |users|
        invariant 0 <= i <= |users|
        invariant forall k :: 0 <= k < i ==> users[k].phone != phone
      {
        if users[i].phone == phone {
          return Some(users[i]);
        }
        i := i + 1;
      }
      return None;
    }

    /** `findUser({ _id })`. */
    method FindById(id: nat) returns (u: Option<User>)
      requires Valid()
      ensures u.None? <==> id >= |users|
      ensures u.Some? ==> u.value == users[id]
    {
      if id < |users| {
        return Some(users[id]);
      }
      return None;
    }

    /** `createUser({ phone })`. */
    method Create(phone: string) returns (u: User)
      requires Valid()
      modifies this
      ensures Valid()
      ensures u == User(|old(users)|, phone, None, None, false)
      ensures users == old(users) + [u]
    {
      u := User(|users|, phone, None, None, false);
      users := users + [u];
    }

    /** `user.save()` of a record read from this store. */
    method Save(u: User)
      requires Valid() && u.id < |users|
      modifies this
      ensures Valid()
      ensures users == old(users)[u.id := u]
    {
      users := users[u.id := u];
    }
  }
}

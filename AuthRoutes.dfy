/** The back end's in-memory user registry and its sign-in and registration
    handlers.  Requests are the JSON body as a string map (`None` when there
    is no body); the password hash (SHA-256) and the token signer (JWT, with
    its clock) are parameters. */
module AuthRoutes {
  import opened Text

  type Json = map<string, string>

  datatype UserRecord = UserRecord(
    id: int, username: string, passwordHash: string, email: string,
    fullName: string, role: string, createdAt: string)

  /** What a response reveals of a user: everything but the hash and the
      creation time. */
  datatype UserView = UserView(id: int, username: string, email: string, fullName: string, role: string)

  function View(u: UserRecord): (r: UserView)
    ensures r.id == u.id && r.username == u.username && r.email == u.email
    ensures r.fullName == u.fullName && r.role == u.role
  {
    UserView(u.id, u.username, u.email, u.fullName, u.role)
  }

  const LoginFieldsMissing: string := "请输入用户名和密码"
  const LoginRejectedMessage: string := "用户名或密码错误"

  datatype LoginResult =
    | LoginMissingFields          // 400
    | LoginRejected(error: string) // 401
    | LoginOk(token: string, user: UserView)

  datatype RegisterResult =
    | RegisterServerError         // 500: the body is missing
    | RegisterMissingFields       // 400
    | RegisterDuplicate           // 400
    | RegisterOk(token: string, user: UserView)

  /** `data.get(key)` in a truthiness test: a missing key reads as "". */
  function Get(data: Json, key: string): string {
    if key in data then data[key] else ""
  }

  /** The name registered: `username`, or else `user_name`. */
  function RegisterUsername(data: Json): string {
    if Get(data, "username") != "" then Get(data, "username") else Get(data, "user_name")
  }

  /** The full name stored: `full_name`, else "first last" stripped, else
      the username; it is never empty for a non-empty username. */
  function RegisterFullName(data: Json, username: string): (r: string)
    ensures Get(data, "full_name") != "" ==> r == Get(data, "full_name")
    ensures Get(data, "full_name") == "" ==>
              var joined := PyStrip(Get(data, "first_name") + " " + Get(data, "last_name"));
              r == if joined != "" then joined else username
    ensures username != "" ==> r != ""
  {
    var given := Get(data, "full_name");
    var full := if given != "" then given else PyStrip(Get(data, "first_name") + " " + Get(data, "last_name"));
    if full != "" then full else username
  }

  /** A registration body names a user, a password and an e-mail. */
  predicate RegisterFieldsPresent(data: Json) {
    RegisterUsername(data) != "" && Get(data, "password") != "" && Get(data, "email") != ""
  }

  function NewUserRecord(data: Json, id: int, hash: string -> string, now: string): UserRecord {
    var username := RegisterUsername(data);
    UserRecord(id, username, hash(Get(data, "password")), Get(data, "email"),
               RegisterFullName(data, username), "user", now)
  }

  function Credentials(username: string, password: string): Json {
    map["username" := username, "password" := password]
  }

  /** The registry invariant: `order` lists every username once, the user
      at position i carries id i + 1, and each record is filed under its own
      name with the role "user". */
  ghost predicate RegistryValid(users: map<string, UserRecord>, order: seq<string>) {
    && |order| == |users|
    && (forall i :: 0 <= i < |order| ==> order[i] in users && users[order[i]].id == i + 1)
    && (forall i, j :: 0 <= i < j < |order| ==> order[i] != order[j])
    && (forall u :: u in users ==> u in order)
    && (forall u :: u in users ==> users[u].username == u && users[u].role == "user")
  }

  /** Adding a new name with the next id keeps the invariant. */
  lemma AddKeepsValid(users: map<string, UserRecord>, order: seq<string>, name: string, record: UserRecord)
    requires RegistryValid(users, order) && name !in users
    requires record.id == |users| + 1 && record.username == name && record.role == "user"
    ensures RegistryValid(users[name := record], order + [name])
  {
    var users', order' := users[name := record], order + [name];
    assert |users'| == |users| + 1;
    forall i | 0 <= i < |order'| ensures order'[i] in users' && users'[order'[i]].id == i + 1 {
      if i < |order| {
        assert order'[i] == order[i] && order[i] != name;
      }
    }
  }

  /** The registry, `USERS`.  `order` (ghost) lists the usernames in
      insertion order: the user at position i carries id i + 1. */
  class UserRegistry {
    var users: map<string, UserRecord>
    ghost var order: seq<string>

    ghost predicate Valid()
      reads this
    {
      RegistryValid(users, order)
    }

    /** The registry starts with the demo user, id 1, password "demo123". */
    constructor (hash: string -> string)
      ensures Valid()
      ensures users == map["demo" := UserRecord(1, "demo", hash("demo123"), "demo@example.com", "Demo User", "user", "2024-01-01T00:00:00Z")]
    {
      users := map["demo" := UserRecord(1, "demo", hash("demo123"), "demo@example.com", "Demo User", "user", "2024-01-01T00:00:00Z")];
      order := ["demo"];
    }

    ghost predicate HasId(i: int)
      reads this
    {
      exists u :: u in users && users[u].id == i
    }

    /** The ids are distinct and are exactly 1 .. the number of users. */
    lemma IdsAreOneToN()
      requires Valid()
      ensures forall u :: u in users ==> 1 <= users[u].id <= |users|
      ensures forall u, v :: u in users && v in users && u != v ==> users[u].id != users[v].id
      ensures forall i :: 1 <= i <= |users| ==> HasId(i)
    {
      forall u | u in users ensures 1 <= users[u].id <= |users| {
        var i :| 0 <= i < |order| && order[i] == u;
      }
      forall u, v | u in users && v in users && u != v ensures users[u].id != users[v].id {
        var i :| 0 <= i < |order| && order[i] == u;
        var j :| 0 <= j < |order| && order[j] == v;
      }
      forall i | 1 <= i <= |users| ensures HasId(i) {
        assert order[i - 1] in users && users[order[i - 1]].id == i;
      }
    }

    /** `login`: a body without both fields is refused with 400; an unknown
        name and a wrong password get the same 401 message; otherwise the
        token and the user's public fields. */
    function Login(data: Option<Json>, hash: string -> string, token: (int, string) -> string): (r: LoginResult)
      reads this
      ensures r == LoginMissingFields <==> data.None? || "username" !in data.value || "password" !in data.value
      ensures r.LoginRejected? ==> r.error == LoginRejectedMessage
      ensures r.LoginRejected? <==>
                && data.Some? && "username" in data.value && "password" in data.value
                && (data.value["username"] !in users
                    || hash(data.value["password"]) != users[data.value["username"]].passwordHash)
      ensures r.LoginOk? ==>
                && data.Some? && "username" in data.value && data.value["username"] in users
                && var u := users[data.value["username"]];
                && r.user == View(u) && r.token == token(u.id, data.value["username"])
    {
      if data.None? || "username" !in data.value || "password" !in data.value then LoginMissingFields
      else
        var username := data.value["username"];
        if username !in users then LoginRejected(LoginRejectedMessage)
        else
          var u := users[username];
          if hash(data.value["password"]) != u.passwordHash then LoginRejected(LoginRejectedMessage)
          else LoginOk(token(u.id, username), View(u))
    }

    /** Signing in with a stored name and the password whose hash is stored
        succeeds; in particular, right after a registration with the same
        name and password, since both sides apply the same hash. */
    lemma LoginAfterRegister(name: string, password: string, hash: string -> string, token: (int, string) -> string)
      requires name in users && users[name].passwordHash == hash(password)
      ensures Login(Some(Credentials(name, password)), hash, token) == LoginOk(token(users[name].id, name), View(users[name]))
    {
      var data := Credentials(name, password);
      assert "username" in data && "password" in data;
      assert data["username"] == name && data["password"] == password;
    }

    /** `register`: a missing body fails (500), missing fields and a taken
        name are refused (400) with the registry unchanged; otherwise the user
        is added under the next id with the hash of its password. */
    method Register(data: Option<Json>, hash: string -> string, token: (int, string) -> string, now: string)
      returns (r: RegisterResult)
      requires Valid()
      modifies this
      ensures Valid()
      ensures data.None? <==> r == RegisterServerError
      ensures r == RegisterMissingFields <==> data.Some? && !RegisterFieldsPresent(data.value)
      ensures r == RegisterDuplicate <==>
                data.Some? && RegisterFieldsPresent(data.value) && RegisterUsername(data.value) in old(users)
      ensures !r.RegisterOk? ==> users == old(users)
      ensures r.RegisterOk? ==>
                && data.Some?
                && var name := RegisterUsername(data.value);
                && var record := NewUserRecord(data.value, |old(users)| + 1, hash, now);
                && name !in old(users)
                && users == old(users)[name := record]
                && r.user == View(record) && r.token == token(|old(users)| + 1, name)
                && users[name].passwordHash == hash(Get(data.value, "password"))
    {
      if data.None? {
        return RegisterServerError;
      }
      var body := data.value;
      if !RegisterFieldsPresent(body) {
        return RegisterMissingFields;
      }
      var username := RegisterUsername(body);
      if username in users {
        return RegisterDuplicate;
      }
      var id := |users| + 1;
      var record := NewUserRecord(body, id, hash, now);
      Add(username, record);
      r := RegisterOk(token(id, username), View(record));
    }

    /** Files a new user under its name, with the next id. */
    method Add(name: string, record: UserRecord)
      requires Valid() && name !in users
      requires record.id == |users| + 1 && record.username == name && record.role == "user"
      modifies this
      ensures Valid()
      ensures users == old(users)[name := record]
    {
      AddKeepsValid(users, order, name, record);
      users := users[name := record];
      order := order + [name];
    }
  }
}

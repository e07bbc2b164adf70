/** The application-level user dictionary (apps/api/src/user/userStore.js):
    `data/users.json` maps each username to a profile record. Every
    operation reads the whole file, and the mutating ones write it back.
    Record fields are strings here. The id and the creation time, drawn from
    the clock and a random generator in the source, are parameters. */
module UserStore {
  import opened Common
  import UserDirectory

  type UserRecord = map<string, string>
  type Users = map<string, UserRecord>

  /** The users file: absent, present but not parseable (or not readable),
      or holding a dictionary. */
  datatype UsersFile = Missing | Unreadable | Holds(users: Users)

  /** `readUsers()`: a file that cannot be read or parsed reads as `{}`. */
  function ReadUsers(f: UsersFile): (users: Users)
    ensures f.Holds? ==> users == f.users
    ensures !f.Holds? ==> users == map[]
  {
    match f
    case Holds(users) => users
    case _ => map[]
  }

  /** The file after `readUsers()`: `ensureUsersFile` writes `{}` when it is
      missing. */
  function AfterRead(f: UsersFile): (g: UsersFile)
    ensures f.Missing? ==> g == Holds(map[])
    ensures !f.Missing? ==> g == f
    ensures ReadUsers(g) == ReadUsers(f)
  {
    if f.Missing? then Holds(map[]) else f
  }

  /** The record `upsertUser` creates: the generated fields, then every field
      of `userData`, which wins on a shared name. */
  function NewUser(env: Env, username: string, userData: UserRecord, id: string, createdAt: string): (r: UserRecord)
    ensures r.Keys == {"id", "username", "createdAt", "videoPath"} + userData.Keys
    ensures forall k :: k in userData ==> r[k] == userData[k]
    ensures "id" !in userData ==> r["id"] == id
    ensures "username" !in userData ==> r["username"] == username
    ensures "createdAt" !in userData ==> r["createdAt"] == createdAt
    ensures "videoPath" !in userData ==> r["videoPath"] == UserDirectory.UserVideoPath(env, username)
  {
    map["id" := id, "username" := username, "createdAt" := createdAt,
        "videoPath" := UserDirectory.UserVideoPath(env, username)] + userData
  }

  /** The dictionary after `upsertUser` and the record it returns. */
  datatype Upsert = Upsert(users: Users, user: UserRecord)

  function UpsertSpec(users: Users, env: Env, username: string, userData: UserRecord, id: string, createdAt: string): (r: Upsert)
    ensures username in users ==> r == Upsert(users, users[username])
    ensures username !in users ==>
      && r.user == NewUser(env, username, userData, id, createdAt)
      && r.users.Keys == users.Keys + {username}
      && r.users[username] == r.user
      && forall k :: k in users ==> r.users[k] == users[k]
  {
    if username in users then Upsert(users, users[username])
    else
      var user := NewUser(env, username, userData, id, createdAt);
      Upsert(users[username := user], user)
  }

  /** A second upsert of the same name is a lookup: it returns the record
      the first created and leaves the dictionary as it was, whatever data
      and draws it is given. */
  lemma UpsertIsIdempotent(
    users: Users, env: Env, username: string,
    data1: UserRecord, id1: string, at1: string, data2: UserRecord, id2: string, at2: string)
    ensures var first := UpsertSpec(users, env, username, data1, id1, at1);
      UpsertSpec(first.users, env, username, data2, id2, at2) == first
  {
  }

  /** A new user's record is what `getUser` then finds. */
  lemma UpsertThenGet(users: Users, env: Env, username: string, userData: UserRecord, id: string, createdAt: string)
    ensures var r := UpsertSpec(users, env, username, userData, id, createdAt);
      username in r.users && r.users[username] == r.user
  {
  }

  /** The new record's `videoPath`: the user's own directory exactly in
      multi-user mode, unless `userData` names one. */
  lemma NewUserVideoPath(env: Env, username: string, userData: UserRecord, id: string, createdAt: string)
    requires "videoPath" !in userData
    ensures var p := NewUser(env, username, userData, id, createdAt)["videoPath"];
      && (UserDirectory.MultiUserEnabled(env) ==> p == JoinPath(UserDirectory.BaseVideoPath(env), username))
      && (!UserDirectory.MultiUserEnabled(env) ==> p == OrDefault(EnvGet(env, "VIDEO_PATH"), "/mnt-host"))
  {
  }

  class UserStore {
    var file: UsersFile

    constructor (file: UsersFile)
      ensures this.file == file
    {
      this.file := file;
    }

    /** `readUsers()` */
    method Read() returns (users: Users)
      modifies this
      ensures users == ReadUsers(old(file))
      ensures file == AfterRead(old(file))
    {
      if file.Missing? {
        file := Holds(map[]);
      }
      users := ReadUsers(file);
    }

    /** `getUser(username)`: the record, or `None` for `null`. */
    method GetUser(username: string) returns (user: Option<UserRecord>)
      modifies this
      ensures var users := ReadUsers(old(file));
        user == if username in users then Some(users[username]) else None
      ensures file == AfterRead(old(file))
    {
      var users := Read();
      user := if username in users then Some(users[username]) else None;
    }

    /** `upsertUser(username, userData)`: an existing user is returned as it
        is and nothing is written; a new one is added and the file
        rewritten. */
    method UpsertUser(env: Env, username: string, userData: UserRecord, id: string, createdAt: string)
      returns (user: UserRecord)
      modifies this
      ensures var r := UpsertSpec(ReadUsers(old(file)), env, username, userData, id, createdAt);
        && user == r.user
        && file == if username in ReadUsers(old(file)) then AfterRead(old(file)) else Holds(r.users)
    {
      var users := Read();
      if username in users {
        return users[username];
      }
      var baseVideoPath := OrDefault(EnvGet(env, "VIDEO_PATH"), "/mnt-host");
      var multiUserEnabled := EnvGet(env, "MULTI_USER_ENABLED") == Some("true");
      var userVideoPath := if multiUserEnabled then JoinPath(baseVideoPath, username) else baseVideoPath;
      user := map["id" := id, "username" := username, "createdAt" := createdAt, "videoPath" := userVideoPath] + userData;
      users := users[username := user];
      file := Holds(users);
    }

    /** `getAllUsers()`: every record once. `order` is the key order
        `Object.values` follows, which the model leaves open. */
    method GetAllUsers() returns (all: seq<UserRecord>, ghost order: seq<string>)
      modifies this
      ensures file == AfterRead(old(file))
      ensures |order| == |all|
      ensures forall i :: 0 <= i < |order| ==> order[i] in ReadUsers(old(file)) && all[i] == ReadUsers(old(file))[order[i]]
      ensures forall i, j :: 0 <= i < j < |order| ==> order[i] != order[j]
      ensures forall k :: k in ReadUsers(old(file)) ==> k in order
    {
      var users := Read();
      var remaining := users.Keys;
      all, order := [], [];
      while remaining != {}
        invariant remaining <= users.Keys
        invariant |order| == |all|
        invariant forall i :: 0 <= i < |order| ==> order[i] in users && order[i] !in remaining && all[i] == users[order[i]]
        invariant forall i, j :: 0 <= i < j < |order| ==> order[i] != order[j]
        invariant forall k :: k in users && k !in remaining ==> k in order
        decreases |remaining|
      {
        var k :| k in remaining;
        all, order := all + [users[k]], order + [k];
        remaining := remaining - {k};
      }
    }

    /** `deleteUser(username)`: true exactly when the user existed; only then
        is the file rewritten, without that user. */
    method DeleteUser(username: string) returns (deleted: bool)
      modifies this
      ensures deleted <==> username in ReadUsers(old(file))
      ensures deleted ==> file == Holds(ReadUsers(old(file)) - {username})
      ensures !deleted ==> file == AfterRead(old(file))
    {
      var users := Read();
      if username in users {
        file := Holds(users - {username});
        return true;
      }
      deleted := false;
    }
  }
}

/** The user table and client settings of `client.py`: users with a password hash and an admin
    flag, log-in with a one-time upgrade of an installer's `TEMP_` password to its hash, and the
    defaults merged into `client_config.json`. */
module Client {
  import opened Wrappers
  import opened Strings
  import opened Paths
  import opened Queues

  /** Python's insertion-ordered `dict` with string keys: the keys in insertion order and the
      mapping itself. */
  datatype Dict<V> = Dict(keys: seq<string>, values: map<string, V>) {
    predicate Valid() {
      Distinct(keys) && (forall k :: k in values ==> k in keys) && (forall k :: k in keys ==> k in values)
    }

    /** `d[k] = v`: a new key goes last, an existing one keeps its place. */
    function Put(k: string, v: V): (d: Dict<V>)
      requires Valid()
      ensures d.Valid()
      ensures forall j :: j in d.values <==> j in values || j == k
      ensures d.values[k] == v && forall j :: j in values && j != k ==> d.values[j] == values[j]
      ensures |d.keys| >= |keys| && d.keys[..|keys|] == keys
    {
      Dict(if k in values then keys else keys + [k], values[k := v])
    }

    /** `d.pop(k, None)`: the key goes (nothing happens when it is absent); the other keys keep
        their values and their order. */
    function Pop(k: string): (d: Dict<V>)
      requires Valid()
      ensures d.Valid()
      ensures forall j :: j in d.values <==> j in values && j != k
      ensures forall j :: j in d.values ==> d.values[j] == values[j]
      ensures d.keys == FilterOut(keys, [k])
    {
      if k in keys then
        RemoveFirstDrops(keys, k);
        forall j ensures j in FilterOut(keys, [k]) <==> j in keys && j != k {
          FilterOutMembers(keys, [k], j);
        }
        Dict(RemoveFirst(keys, k), values - {k})
      else
        FilterOutNothingOther(keys, k);
        Dict(keys, values)
    }
  }

  /** Filtering out a key that does not occur keeps the list. */
  lemma {:induction false} FilterOutNothingOther(keys: seq<string>, k: string)
    requires k !in keys
    ensures FilterOut(keys, [k]) == keys
    decreases |keys|
  {
    if keys != [] {
      FilterOutNothingOther(keys[1..], k);
      assert keys == [keys[0]] + keys[1..];
    }
  }

  /** A `hexdigest()`: lower-case hexadecimal digits only. */
  predicate IsHexDigest(s: string) {
    forall i :: 0 <= i < |s| ==> s[i] in "0123456789abcdef"
  }

  type HexDigest = s: string | IsHexDigest(s) witness ""

  /** The marker of a password set by the installer and not yet hashed. */
  const TempPrefix: string := "TEMP_"

  /** The password of the administrator created with a new user table. */
  const DefaultAdminPassword: string := "ypd@123"

  /** A digest never looks like a temporary password. */
  lemma DigestNotTemp(h: HexDigest)
    ensures !StartsWith(h, TempPrefix)
  {
    if |h| >= |TempPrefix| {
      assert h[0] in "0123456789abcdef";
      assert h[..|TempPrefix|][0] == h[0];
    }
  }

  /** One entry of `user.json`: `psw`, `is_admin` and the optional `_note`. */
  datatype User = User(psw: string, isAdmin: bool, note: Option<string>)

  /** The hash `add_user` stores: that of the password with a leading `TEMP_` removed. */
  function StoredHash(hash: string -> HexDigest, password: string): (h: HexDigest)
    ensures StartsWith(password, TempPrefix) ==> h == hash(password[|TempPrefix|..])
    ensures !StartsWith(password, TempPrefix) ==> h == hash(password)
  {
    if StartsWith(password, TempPrefix) then hash(password[|TempPrefix|..]) else hash(password)
  }

  /** `add_user` on the table `d`: refused for a known name, which leaves the table as it is;
      otherwise a non-admin or admin entry with the stored hash is added last. */
  function Added(d: Dict<User>, name: string, password: string, admin: bool, hash: string -> HexDigest)
    : (r: (bool, Dict<User>))
    requires d.Valid()
    ensures r.0 <==> name !in d.values
    ensures !r.0 ==> r.1 == d
    ensures r.0 ==> r.1.Valid() && r.1.keys == d.keys + [name]
                    && r.1.values == d.values[name := User(StoredHash(hash, password), admin, None)]
  {
    if name in d.values then (false, d)
    else (true, d.Put(name, User(StoredHash(hash, password), admin, None)))
  }

  /** `auth` on the table `d`: the verdict and the table afterwards. An unknown user, and a
      non-admin when only admins may log in, are refused. A stored `TEMP_<p>` accepts exactly `p`,
      and on success becomes the hash of `p` without its note; any other stored value accepts
      exactly the passwords it is the hash of. */
  function Authenticated(d: Dict<User>, name: string, password: string, adminOnly: bool,
                         hash: string -> HexDigest): (r: (bool, Dict<User>))
    requires d.Valid()
    ensures r.1.Valid() && r.1.keys == d.keys
    ensures !r.0 ==> r.1 == d
    ensures r.0 ==> name in d.values && (adminOnly ==> d.values[name].isAdmin)
    ensures forall j :: j in d.values && j != name ==> r.1.values[j] == d.values[j]
  {
    if name !in d.values then (false, d)
    else
      var u := d.values[name];
      if adminOnly && !u.isAdmin then (false, d)
      else if StartsWith(u.psw, TempPrefix) then
        if password == u.psw[|TempPrefix|..] then (true, d.Put(name, User(hash(password), u.isAdmin, None)))
        else (false, d)
      else (u.psw == hash(password), d)
  }

  /** A stored hash is compared and never changed. */
  lemma AuthByHash(d: Dict<User>, name: string, password: string, adminOnly: bool, hash: string -> HexDigest)
    requires d.Valid() && name in d.values && !StartsWith(d.values[name].psw, TempPrefix)
    ensures Authenticated(d, name, password, adminOnly, hash).1 == d
    ensures Authenticated(d, name, password, adminOnly, hash).0 <==>
              (!adminOnly || d.values[name].isAdmin) && d.values[name].psw == hash(password)
  {
  }

  /** A temporary password is accepted once as itself; afterwards it is stored as its hash and
      the same password is accepted again, through the hash, without any further change. */
  lemma TempUpgradedOnce(d: Dict<User>, name: string, password: string, adminOnly: bool, hash: string -> HexDigest)
    requires d.Valid() && name in d.values && StartsWith(d.values[name].psw, TempPrefix)
    ensures var (ok, d1) := Authenticated(d, name, password, adminOnly, hash);
            (ok <==> (!adminOnly || d.values[name].isAdmin) && password == d.values[name].psw[|TempPrefix|..])
            && (ok ==> d1.values[name] == User(hash(password), d.values[name].isAdmin, None)
                       && !StartsWith(d1.values[name].psw, TempPrefix)
                       && Authenticated(d1, name, password, adminOnly, hash) == (true, d1))
  {
    var (ok, d1) := Authenticated(d, name, password, adminOnly, hash);
    if ok {
      DigestNotTemp(hash(password));
      AuthByHash(d1, name, password, adminOnly, hash);
    }
  }

  /** A user just added logs in with the password given to `add_user`, or, when that was a
      temporary `TEMP_<p>`, with `p`. */
  lemma AddedLogsIn(d: Dict<User>, name: string, password: string, admin: bool, hash: string -> HexDigest)
    requires d.Valid() && name !in d.values
    ensures var d1 := Added(d, name, password, admin, hash).1;
            var given := if StartsWith(password, TempPrefix) then password[|TempPrefix|..] else password;
            Authenticated(d1, name, given, false, hash) == (true, d1)
            && (admin ==> Authenticated(d1, name, given, true, hash) == (true, d1))
  {
    var d1 := Added(d, name, password, admin, hash).1;
    DigestNotTemp(StoredHash(hash, password));
    var given := if StartsWith(password, TempPrefix) then password[|TempPrefix|..] else password;
    AuthByHash(d1, name, given, false, hash);
    AuthByHash(d1, name, given, true, hash);
  }

  /** The table a fresh installation starts with: only the administrator, under the default
      password, as `add_user('admin', 'ypd@123', True)` would make it. */
  function AdminTable(hash: string -> HexDigest): (d: Dict<User>)
    ensures d.Valid() && d.keys == ["admin"]
    ensures d.values["admin"] == User(hash(DefaultAdminPassword), true, None)
  {
    NotTempPassword();
    Added(Dict([], map[]), "admin", DefaultAdminPassword, true, hash).1
  }

  /** The default password carries no `TEMP_` note. */
  lemma NotTempPassword()
    ensures !StartsWith(DefaultAdminPassword, TempPrefix)
  {
    assert DefaultAdminPassword[..|TempPrefix|] != TempPrefix by {
      assert DefaultAdminPassword[0] != TempPrefix[0];
    }
  }

  /** On a fresh installation the administrator logs in, with administrator rights, under the
      default password, and the login changes nothing. */
  lemma FreshAdminLogsIn(hash: string -> HexDigest)
    ensures Authenticated(AdminTable(hash), "admin", DefaultAdminPassword, true, hash) == (true, AdminTable(hash))
  {
    NotTempPassword();
    AddedLogsIn(Dict([], map[]), "admin", DefaultAdminPassword, true, hash);
  }

  /** Start-up as `client.py` is written. With a `user.json` its table is loaded. Without one,
      line 14 calls the `add_user` of `clientui/actions.py`, whose `import client` meets a
      `client` module that has not reached the definition of its own `add_user` at line 22, so
      `client.add_user` raises AttributeError and start-up fails. */
  function StartUpAsWritten(saved: Option<Dict<User>>): (r: Result<Dict<User>>)
    ensures r.Err? <==> saved.None?
    ensures saved.Some? ==> r == Ok(saved.value)
  {
    if saved.Some? then Ok(saved.value)
    else Err("AttributeError: module 'client' has no attribute 'add_user'")
  }

  /** As written, a fresh installation never reaches a table the administrator can log in to;
      the start-up of `UserTable` gives one in which the administrator logs in at once. */
  lemma FreshInstallAsWritten(hash: string -> HexDigest)
    ensures StartUpAsWritten(None).Err?
    ensures Authenticated(AdminTable(hash), "admin", DefaultAdminPassword, true, hash).0
  {
    FreshAdminLogsIn(hash);
  }

  /** The user table of `client.py`: the module-level `users` dict, and `user.json`, which every
      change is written to. */
  class UserTable {
    var users: Dict<User>
    var file: Dict<User>
    const hash: string -> HexDigest

    predicate Valid()
      reads this
    {
      users.Valid()
    }

    /** Loading at start-up: the saved table, or, when there is no `user.json`, a new one holding
        only the administrator, which is written out. This is the evidently intended start-up;
        `StartUpAsWritten` is the one the source runs. */
    constructor(saved: Option<Dict<User>>, hash: string -> HexDigest)
      requires saved.Some? ==> saved.value.Valid()
      ensures Valid() && this.hash == hash
      ensures saved.Some? ==> users == saved.value && file == saved.value
      ensures saved.None? ==> users == AdminTable(hash) && file == users
    {
      this.hash := hash;
      if saved.Some? {
        users, file := saved.value, saved.value;
      } else {
        var d := Dict([], map[]);
        var (_, d1) := Added(d, "admin", DefaultAdminPassword, true, hash);
        users, file := d1, d1;
      }
    }

    /** `add_user`. */
    method AddUser(name: string, password: string, admin: bool) returns (ok: bool)
      requires Valid()
      modifies this
      ensures Valid()
      ensures (ok, users) == Added(old(users), name, password, admin, hash)
      ensures ok ==> file == users
      ensures !ok ==> file == old(file)
    {
      if name in users.values {
        return false;
      }
      users := users.Put(name, User(StoredHash(hash, password), admin, None));
      file := users;
      return true;
    }

    /** `auth`; the table is written out when a temporary password is upgraded. */
    method Auth(name: string, password: string, adminOnly: bool) returns (ok: bool)
      requires Valid()
      modifies this
      ensures Valid()
      ensures (ok, users) == Authenticated(old(users), name, password, adminOnly, hash)
      ensures users != old(users) ==> file == users
      ensures users == old(users) ==> file == old(file)
    {
      if name !in users.values {
        return false;
      }
      var u := users.values[name];
      if adminOnly && !u.isAdmin {
        return false;
      }
      if StartsWith(u.psw, TempPrefix) {
        if password == u.psw[|TempPrefix|..] {
          DigestNotTemp(hash(password));
          users := users.Put(name, User(hash(password), u.isAdmin, None));
          file := users;
          return true;
        }
        return false;
      }
      return u.psw == hash(password);
    }
  }

  // ---------------------------------------------------------------- client_config.json

  /** A value of `client_config.json`. */
  datatype Setting = Number(n: int) | Text(s: string) | Flag(b: bool) | Texts(ss: seq<string>)

  /** The defaults of `load_client_config`; `home` is `os.path.expanduser("~")`. */
  function DefaultConfig(home: string): (d: Dict<Setting>)
    ensures d.Valid()
  {
    var appData := Join(Join(Join(home, "AppData"), "Local"), "MSST_WebUI");
    FromPairs([("client_port", Number(7861)), ("server_port", Number(7860)),
               ("server_address", Text("localhost")), ("user_dir", Text("E:/MSSTuser")),
               ("cache_dir", Text(Join(appData, "cache"))), ("temp_dir", Text(Join(appData, "temp"))),
               ("auto_clean_temp", Flag(true)), ("max_file_size", Number(100)),
               ("allowed_formats", Texts(["wav", "mp3", "flac", "m4a", "ogg"]))])
  }

  /** A dict literal: the pairs put in one after the other. */
  function FromPairs<V>(ps: seq<(string, V)>): (d: Dict<V>)
    ensures d.Valid()
    decreases |ps|
  {
    if ps == [] then Dict([], map[])
    else FromPairs(ps[..|ps| - 1]).Put(ps[|ps| - 1].0, ps[|ps| - 1].1)
  }

  /** The keys of `defaults` that `config` lacks, in the defaults' order. */
  function MissingKeys<V>(config: Dict<V>, defaults: seq<string>): (r: seq<string>)
    ensures forall k :: k in r <==> k in defaults && k !in config.values
    decreases |defaults|
  {
    if defaults == [] then []
    else MissingKeys(config, defaults[..|defaults| - 1])
         + (if defaults[|defaults| - 1] in config.values then [] else [defaults[|defaults| - 1]])
  }

  /** One step of the merge: the default of `k` is added unless `config` has the key. */
  function AddMissing<V>(config: Dict<V>, defaults: Dict<V>, k: string): (r: Dict<V>)
    requires config.Valid()
    ensures r.Valid()
    ensures forall j :: j in r.values <==> j in config.values || (j == k && k in defaults.values)
    ensures forall j :: j in config.values ==> r.values[j] == config.values[j]
  {
    if k in config.values || k !in defaults.values then config else config.Put(k, defaults.values[k])
  }

  /** The default keys `ks` added to `config` one after the other, each only when missing. */
  function WithDefaults<V>(config: Dict<V>, defaults: Dict<V>, ks: seq<string>): (r: Dict<V>)
    requires config.Valid()
    ensures r.Valid()
    ensures forall k :: k in r.values <==> k in config.values || (k in ks && k in defaults.values)
    ensures forall k :: k in config.values ==> r.values[k] == config.values[k]
    decreases |ks|
  {
    if ks == [] then config else AddMissing(WithDefaults(config, defaults, ks[..|ks| - 1]), defaults, ks[|ks| - 1])
  }

  /** One merge step appends the key exactly when `config` lacks it. */
  lemma AddMissingKeys<V>(config: Dict<V>, defaults: Dict<V>, k: string)
    requires config.Valid() && k in defaults.values
    ensures AddMissing(config, defaults, k).keys == config.keys + (if k in config.values then [] else [k])
  {
  }

  /** Adding the last of `ks` after the others is the whole merge over `ks`. */
  lemma WithDefaultsSnoc<V>(config: Dict<V>, defaults: Dict<V>, ks: seq<string>, i: nat)
    requires config.Valid() && i < |ks|
    ensures WithDefaults(config, defaults, ks[..i + 1]) == AddMissing(WithDefaults(config, defaults, ks[..i]), defaults, ks[i])
  {
    assert ks[..i + 1][..i] == ks[..i];
  }

  /** The missing keys follow the existing ones, in the order they are added. */
  lemma {:induction false} MergeKeys<V>(config: Dict<V>, defaults: Dict<V>, ks: seq<string>)
    requires config.Valid() && Distinct(ks) && forall k :: k in ks ==> k in defaults.values
    ensures WithDefaults(config, defaults, ks).keys == config.keys + MissingKeys(config, ks)
    decreases |ks|
  {
    if ks != [] {
      var n := |ks| - 1;
      var k := ks[n];
      DistinctInit(ks);
      MergeKeys(config, defaults, ks[..n]);
      var w := WithDefaults(config, defaults, ks[..n]);
      assert k in w.values <==> k in config.values;
      AddMissingKeys(w, defaults, k);
      var tail := if k in config.values then [] else [k];
      assert MissingKeys(config, ks) == MissingKeys(config, ks[..n]) + tail;
      AppendAssoc(config.keys, MissingKeys(config, ks[..n]), tail);
    }
  }

  /** Every added key gets its default value. */
  lemma {:induction false} MergeDefaultValues<V>(config: Dict<V>, defaults: Dict<V>, ks: seq<string>)
    requires config.Valid() && Distinct(ks) && forall k :: k in ks ==> k in defaults.values
    ensures forall k :: k in ks && k !in config.values ==> WithDefaults(config, defaults, ks).values[k] == defaults.values[k]
    decreases |ks|
  {
    if ks != [] {
      var n := |ks| - 1;
      DistinctInit(ks);
      MergeDefaultValues(config, defaults, ks[..n]);
      SplitLast(ks);
    }
  }

  /** The merging loop of `load_client_config`: the default keys, in their order, each added
      when the configuration lacks it. */
  method MergeDefaults(config: Dict<Setting>, defaults: Dict<Setting>) returns (r: Dict<Setting>)
    requires config.Valid() && defaults.Valid()
    ensures r == WithDefaults(config, defaults, defaults.keys)
  {
    r := config;
    var ks := defaults.keys;
    var i := 0;
    while i < |ks|
      invariant 0 <= i <= |ks| && r == WithDefaults(config, defaults, ks[..i])
    {
      WithDefaultsSnoc(config, defaults, ks, i);
      r := AddMissing(r, defaults, ks[i]);
      i := i + 1;
    }
    assert ks[..i] == ks;
  }

  /** The client configuration file: missing, unreadable as JSON, or a parsed dict. */
  class ConfigFile {
    var content: Option<Doc<Dict<Setting>>>

    constructor(content: Option<Doc<Dict<Setting>>>)
      ensures this.content == content
    {
      this.content := content;
    }

    /** `load_client_config`: a missing file is created with the defaults, which are returned; an
        unparsable one gives the defaults and is left alone; a parsed one is returned with the
        missing defaults merged in (the file itself is not rewritten). */
    method Load(home: string) returns (config: Dict<Setting>)
      requires content.Some? && content.value.Parsed? ==> content.value.value.Valid()
      modifies this
      ensures config.Valid()
      ensures old(content).None? ==> config == DefaultConfig(home) && content == Some(Parsed(config))
      ensures old(content) == Some(Corrupt) ==> config == DefaultConfig(home) && content == old(content)
      ensures old(content).Some? && old(content).value.Parsed? ==>
                content == old(content)
                && config.keys == content.value.value.keys + MissingKeys(content.value.value, DefaultConfig(home).keys)
                && (forall k :: k in content.value.value.values ==>
                                 k in config.values && config.values[k] == content.value.value.values[k])
                && (forall k :: k in DefaultConfig(home).values && k !in content.value.value.values ==>
                                 k in config.values && config.values[k] == DefaultConfig(home).values[k])
    {
      var defaults := DefaultConfig(home);
      if content.None? {
        content := Some(Parsed(defaults));
        return defaults;
      }
      if content.value.Corrupt? {
        return defaults;
      }
      var saved := content.value.value;
      config := MergeDefaults(saved, defaults);
      MergeKeys(saved, defaults, defaults.keys);
      MergeDefaultValues(saved, defaults, defaults.keys);
    }
  }
}

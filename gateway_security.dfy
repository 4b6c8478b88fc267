/**
 * The gateway's mapping of a Keycloak access token to Spring authorities:
 * the realm roles first, then the roles of each client in the order of the
 * resource_access object, each as "ROLE_" followed by the upper-cased role.
 * A claim of the wrong shape makes a cast throw, and the conversion fails.
 */
module GatewaySecurity {
  import opened Wrappers
  import opened JavaText

  const RolePrefix := "ROLE_"
  const RealmAccess := "realm_access"
  const ResourceAccess := "resource_access"
  const RolesKey := "roles"

  /** A decoded JSON claim value; an object keeps its members in order. */
  datatype Json =
    | JNull
    | JString(s: string)
    | JList(items: seq<Json>)
    | JObject(members: seq<(string, Json)>)
    | JOther

  /** Map.get on a decoded object: the value of the first member with the name, null when there is none. */
  function Get(members: seq<(string, Json)>, name: string): Json {
    if members == [] then JNull
    else if members[0].0 == name then members[0].1
    else Get(members[1..], name)
  }

  /** Jwt.getClaim: null for a claim the token does not carry. */
  function Claim(claims: map<string, Json>, name: string): Json {
    if name in claims then claims[name] else JNull
  }

  /** The authority granted for one role. */
  function Authority(role: string): string {
    RolePrefix + ToUpper(role)
  }

  /** An authority name: the prefix, then text that upper-casing leaves alone. */
  predicate IsAuthority(a: string) {
    StartsWith(a, RolePrefix) && ToUpper(a[|RolePrefix|..]) == a[|RolePrefix|..]
  }

  /** Every role gives an authority name, and roles that differ only in case give the same one. */
  lemma AuthorityOfRole(role: string)
    ensures IsAuthority(Authority(role))
    ensures Authority(ToUpper(role)) == Authority(role)
  {
    assert Authority(role)[|RolePrefix|..] == ToUpper(role);
    ToUpperIdempotent(role);
  }

  /**
   * roles.stream().map(...).collect(): one authority per role in list order.
   * A null or non-text role makes the mapping throw.
   */
  function AuthoritiesOf(roles: seq<Json>): Result<seq<string>> {
    if roles == [] then Ok([])
    else match roles[0]
      case JString(role) =>
        (match AuthoritiesOf(roles[1..])
         case Ok(rest) => Ok([Authority(role)] + rest)
         case Err => Err)
      case _ => Err
  }

  /**
   * The mapping succeeds exactly when every role is text, and then gives
   * one authority per role, in list order.
   */
  lemma {:induction false} AuthoritiesOfRoles(roles: seq<Json>)
    ensures AuthoritiesOf(roles).Ok? <==> forall i :: 0 <= i < |roles| ==> roles[i].JString?
    ensures AuthoritiesOf(roles).Ok? ==> |AuthoritiesOf(roles).value| == |roles|
    ensures AuthoritiesOf(roles).Ok? ==>
      forall i :: 0 <= i < |roles| ==> AuthoritiesOf(roles).value[i] == Authority(roles[i].s)
  {
    if roles != [] {
      AuthoritiesOfRoles(roles[1..]);
      if roles[0].JString? && !AuthoritiesOf(roles[1..]).Ok? {
        var i :| 0 <= i < |roles[1..]| && !roles[1..][i].JString?;
        assert !roles[i + 1].JString?;
      }
    }
  }

  /** The "roles" entry of an access object: null contributes nothing, a non-list fails the cast. */
  function RolesAuthorities(roles: Json): Result<seq<string>> {
    match roles
    case JNull => Ok([])
    case JList(items) => AuthoritiesOf(items)
    case _ => Err
  }

  /** The realm_access claim: null contributes nothing, a non-object fails the cast. */
  function RealmAuthorities(realm: Json): Result<seq<string>> {
    match realm
    case JNull => Ok([])
    case JObject(members) => RolesAuthorities(Get(members, RolesKey))
    case _ => Err
  }

  /** The roles of one client: an entry whose value is not an object is skipped. */
  function ClientAuthorities(client: Json): Result<seq<string>> {
    if client.JObject? then RolesAuthorities(Get(client.members, RolesKey)) else Ok([])
  }

  /** The clients' authorities, one client after the other. */
  function ClientsAuthorities(clients: seq<(string, Json)>): Result<seq<string>> {
    if clients == [] then Ok([])
    else
      match ClientsAuthorities(clients[..|clients| - 1])
      case Err => Err
      case Ok(xs) =>
        match ClientAuthorities(clients[|clients| - 1].1)
        case Err => Err
        case Ok(ys) => Ok(xs + ys)
  }

  /** The resource_access claim: null contributes nothing, a non-object fails the cast. */
  function ResourceAuthorities(resource: Json): Result<seq<string>> {
    match resource
    case JNull => Ok([])
    case JObject(members) => ClientsAuthorities(members)
    case _ => Err
  }

  /**
   * What convert returns: realm authorities, then client authorities. Every
   * authority granted is "ROLE_" followed by an upper-cased role.
   */
  function Converted(claims: map<string, Json>): (r: Result<seq<string>>)
    ensures r.Ok? ==> forall a :: a in r.value ==> IsAuthority(a)
  {
    RealmAreAuthorities(Claim(claims, RealmAccess));
    ResourceAreAuthorities(Claim(claims, ResourceAccess));
    match RealmAuthorities(Claim(claims, RealmAccess))
    case Err => Err
    case Ok(xs) =>
      match ResourceAuthorities(Claim(claims, ResourceAccess))
      case Err => Err
      case Ok(ys) => Ok(xs + ys)
  }

  /**
   * KeycloakRealmRoleConverter.convert: fills a list with the realm roles'
   * authorities, then with each client's in turn; Err when a cast throws.
   */
  method Convert(claims: map<string, Json>) returns (r: Result<seq<string>>)
    ensures r == Converted(claims)
  {
    var authorities: seq<string> := [];
    var realm := Claim(claims, RealmAccess);
    if realm != JNull {
      if !realm.JObject? {
        return Err;
      }
      var mapped := RolesAuthorities(Get(realm.members, RolesKey));
      if mapped.Err? {
        return Err;
      }
      assert authorities + mapped.value == mapped.value;
      authorities := authorities + mapped.value;
    }
    assert RealmAuthorities(realm) == Ok(authorities);
    var resource := Claim(claims, ResourceAccess);
    if resource != JNull {
      if !resource.JObject? {
        return Err;
      }
      r := AddClients(authorities, resource.members);
      return;
    }
    assert authorities + [] == authorities;
    return Ok(authorities);
  }

  /** resourceAccess.forEach: appends each client's authorities to the list; Err when a cast throws. */
  method AddClients(authorities: seq<string>, clients: seq<(string, Json)>) returns (r: Result<seq<string>>)
    ensures ClientsAuthorities(clients).Ok? ==> r == Ok(authorities + ClientsAuthorities(clients).value)
    ensures ClientsAuthorities(clients).Err? ==> r == Err
  {
    var list := authorities;
    for i := 0 to |clients|
      invariant ClientsAuthorities(clients[..i]).Ok?
      invariant list == authorities + ClientsAuthorities(clients[..i]).value
    {
      var mapped := ClientAuthorities(clients[i].1);
      ClientsStep(clients, i);
      if mapped.Err? {
        ClientsErrPersists(clients, i + 1);
        return Err;
      }
      AppendAssoc(authorities, ClientsAuthorities(clients[..i]).value, mapped.value);
      list := list + mapped.value;
    }
    assert clients[..|clients|] == clients;
    return Ok(list);
  }

  lemma AppendAssoc(a: seq<string>, b: seq<string>, c: seq<string>)
    ensures a + b + c == a + (b + c)
  {
  }

  /** One more client: its authorities follow the earlier ones, and a failure fails the run. */
  lemma ClientsStep(clients: seq<(string, Json)>, i: nat)
    requires i < |clients|
    ensures ClientsAuthorities(clients[..i + 1]) == Joined(ClientsAuthorities(clients[..i]), ClientAuthorities(clients[i].1))
  {
    assert clients[..i + 1] == clients[..i] + [clients[i]];
    ClientsSnoc(clients[..i], clients[i]);
  }

  /** Once a client's roles fail, the whole conversion fails. */
  lemma ClientsErrPersists(clients: seq<(string, Json)>, n: nat)
    requires n <= |clients| && ClientsAuthorities(clients[..n]).Err?
    ensures ClientsAuthorities(clients).Err?
  {
    assert clients == clients[..n] + clients[n..];
    ClientsConcat(clients[..n], clients[n..]);
  }

  // ---------------------------------------------------------------------------
  // Properties

  /** Every authority of a role list is an authority name. */
  lemma RolesAreAuthorities(roles: Json)
    requires RolesAuthorities(roles).Ok?
    ensures forall a :: a in RolesAuthorities(roles).value ==> IsAuthority(a)
  {
    if roles.JList? {
      AuthoritiesOfRoles(roles.items);
      forall i | 0 <= i < |roles.items|
        ensures IsAuthority(RolesAuthorities(roles).value[i])
      {
        AuthorityOfRole(roles.items[i].s);
      }
    }
  }

  lemma {:induction false} ClientsAreAuthorities(clients: seq<(string, Json)>)
    requires ClientsAuthorities(clients).Ok?
    ensures forall a :: a in ClientsAuthorities(clients).value ==> IsAuthority(a)
  {
    if clients != [] {
      ClientsAreAuthorities(clients[..|clients| - 1]);
      var client := clients[|clients| - 1].1;
      if client.JObject? {
        RolesAreAuthorities(Get(client.members, RolesKey));
      }
    }
  }

  /** Every authority of the realm_access claim is "ROLE_" followed by an upper-cased role. */
  lemma RealmAreAuthorities(realm: Json)
    ensures RealmAuthorities(realm).Ok? ==> forall a :: a in RealmAuthorities(realm).value ==> IsAuthority(a)
  {
    if realm.JObject? && RealmAuthorities(realm).Ok? {
      RolesAreAuthorities(Get(realm.members, RolesKey));
    }
  }

  /** Every authority of the resource_access claim is "ROLE_" followed by an upper-cased role. */
  lemma ResourceAreAuthorities(resource: Json)
    ensures ResourceAuthorities(resource).Ok? ==> forall a :: a in ResourceAuthorities(resource).value ==> IsAuthority(a)
  {
    if resource.JObject? && ResourceAuthorities(resource).Ok? {
      ClientsAreAuthorities(resource.members);
    }
  }

  /** How many roles a "roles" entry lists. */
  function RoleCount(roles: Json): nat {
    if roles.JList? then |roles.items| else 0
  }

  /** How many roles the clients list together, counting only clients whose value is an object. */
  function ClientsRoleCount(clients: seq<(string, Json)>): nat {
    if clients == [] then 0
    else
      var client := clients[|clients| - 1].1;
      ClientsRoleCount(clients[..|clients| - 1]) + (if client.JObject? then RoleCount(Get(client.members, RolesKey)) else 0)
  }

  /** A role list grants one authority per role. */
  lemma RolesCount(roles: Json)
    requires RolesAuthorities(roles).Ok?
    ensures |RolesAuthorities(roles).value| == RoleCount(roles)
  {
    if roles.JList? {
      AuthoritiesOfRoles(roles.items);
    }
  }

  lemma {:induction false} ClientsCount(clients: seq<(string, Json)>)
    requires ClientsAuthorities(clients).Ok?
    ensures |ClientsAuthorities(clients).value| == ClientsRoleCount(clients)
  {
    if clients != [] {
      ClientsCount(clients[..|clients| - 1]);
      var client := clients[|clients| - 1].1;
      if client.JObject? {
        RolesCount(Get(client.members, RolesKey));
      }
    }
  }

  /**
   * Duplicates are kept: there are as many authorities as realm roles plus
   * the roles of every client.
   */
  lemma ConvertedCount(claims: map<string, Json>)
    requires Converted(claims).Ok?
    ensures |Converted(claims).value|
         == (var realm := Claim(claims, RealmAccess); if realm.JObject? then RoleCount(Get(realm.members, RolesKey)) else 0)
          + (var resource := Claim(claims, ResourceAccess); if resource.JObject? then ClientsRoleCount(resource.members) else 0)
  {
    var realm := Claim(claims, RealmAccess);
    if realm.JObject? {
      RolesCount(Get(realm.members, RolesKey));
    }
    var resource := Claim(claims, ResourceAccess);
    if resource.JObject? {
      ClientsCount(resource.members);
    }
  }

  /** Two partial results in order: both must succeed, and then their authorities are concatenated. */
  function Joined(a: Result<seq<string>>, b: Result<seq<string>>): (r: Result<seq<string>>)
    ensures r.Ok? <==> a.Ok? && b.Ok?
    ensures r.Ok? ==> r.value == a.value + b.value
  {
    if a.Ok? && b.Ok? then Ok(a.value + b.value) else Err
  }

  /** Joining is associative, and a success with no authorities joins as nothing. */
  lemma JoinedLaws(a: Result<seq<string>>, b: Result<seq<string>>, c: Result<seq<string>>)
    ensures Joined(Joined(a, b), c) == Joined(a, Joined(b, c))
    ensures Joined(a, Ok([])) == a
  {
    if a.Ok? && b.Ok? && c.Ok? {
      assert a.value + b.value + c.value == a.value + (b.value + c.value);
    }
    if a.Ok? {
      assert a.value + [] == a.value;
    }
  }

  /** One more client: its authorities follow those of the clients before it. */
  lemma ClientsSnoc(cs: seq<(string, Json)>, c: (string, Json))
    ensures ClientsAuthorities(cs + [c]) == Joined(ClientsAuthorities(cs), ClientAuthorities(c.1))
  {
    assert (cs + [c])[..|cs|] == cs;
  }

  /**
   * The client authorities of two runs of clients, one after the other: the
   * whole run succeeds exactly when both do, and then lists the first run's
   * authorities before the second's.
   */
  lemma {:induction false} ClientsConcat(cs: seq<(string, Json)>, ds: seq<(string, Json)>)
    ensures ClientsAuthorities(cs + ds) == Joined(ClientsAuthorities(cs), ClientsAuthorities(ds))
    decreases |ds|
  {
    if ds == [] {
      assert cs + ds == cs;
      JoinedLaws(ClientsAuthorities(cs), Ok([]), Ok([]));
    } else {
      var init, last := ds[..|ds| - 1], ds[|ds| - 1];
      assert ds == init + [last];
      assert cs + ds == (cs + init) + [last];
      ClientsSnoc(init, last);
      ClientsSnoc(cs + init, last);
      ClientsConcat(cs, init);
      JoinedLaws(ClientsAuthorities(cs), ClientsAuthorities(init), ClientAuthorities(last.1));
    }
  }

  /** A single client contributes its own authorities. */
  lemma ClientsOne(c: (string, Json))
    ensures ClientsAuthorities([c]) == ClientAuthorities(c.1)
  {
    ClientsSnoc([], c);
    assert [] + [c] == [c];
    if ClientAuthorities(c.1).Ok? {
      assert [] + ClientAuthorities(c.1).value == ClientAuthorities(c.1).value;
    }
  }

  /**
   * A client whose value is not an object, or whose object has no roles,
   * leaves the authorities as they are wherever it stands.
   */
  lemma ClientSkipped(cs: seq<(string, Json)>, id: string, client: Json, ds: seq<(string, Json)>)
    requires !client.JObject? || Get(client.members, RolesKey) == JNull
    ensures ClientsAuthorities(cs + [(id, client)] + ds) == ClientsAuthorities(cs + ds)
  {
    var one := [(id, client)];
    ClientsOne((id, client));
    assert ClientAuthorities(client) == Ok([]);
    ClientsConcat(cs + one, ds);
    ClientsConcat(cs, one);
    ClientsConcat(cs, ds);
    JoinedLaws(ClientsAuthorities(cs), Ok([]), Ok([]));
  }

  /** A failing run of clients makes any longer run that ends with it fail. */
  lemma ClientsErrSuffix(cs: seq<(string, Json)>, ds: seq<(string, Json)>)
    requires ClientsAuthorities(ds).Err?
    ensures ClientsAuthorities(cs + ds).Err?
  {
    ClientsConcat(cs, ds);
  }

  /** Without a realm_access claim, or without roles in it, only client roles are granted. */
  lemma NoRealmRoles(claims: map<string, Json>)
    requires RealmAccess !in claims || (claims[RealmAccess].JObject? && Get(claims[RealmAccess].members, RolesKey) == JNull)
    ensures Converted(claims) == ResourceAuthorities(Claim(claims, ResourceAccess))
  {
    match ResourceAuthorities(Claim(claims, ResourceAccess))
    case Ok(ys) => assert [] + ys == ys;
    case Err =>
  }

  /** A token with neither claim grants nothing. */
  lemma NoClaims(claims: map<string, Json>)
    requires RealmAccess !in claims && ResourceAccess !in claims
    ensures Converted(claims) == Ok([])
  {
    NoRealmRoles(claims);
  }
}

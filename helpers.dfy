/**
 * The pure helpers of the chat client: channel name/id mapping, the key
 * under which a channel's mute flag is stored, server ownership, the
 * server-finder and user-search filters, and the guards of `sendMessage`.
 */
module Helpers {
  import opened Wrappers
  import opened JsText

  // ---------------------------------------------------------------------
  // Channel name <-> id mapping (script.js:5-6, 2197-2208)
  // ---------------------------------------------------------------------

  /** The maps the client starts with (and never changes). */
  const InitialNameToId: map<string, int> := map["general" := 1, "random" := 2]
  const InitialIdToName: map<int, string> := map[1 := "general", 2 := "random"]

  /** `getChannelIdByName`: the mapped id, else 1 for "general" and 2 for anything else. */
  function ChannelIdByName(nameToId: map<string, int>, name: string): (r: int)
    ensures name in nameToId ==> r == nameToId[name]
    ensures name !in nameToId ==> r == (if name == "general" then 1 else 2)
  {
    if name in nameToId then nameToId[name]
    else if name == "general" then 1 else 2
  }

  /**
   * `getChannelNameById`: the mapped name when it is truthy (a non-empty
   * string), else "general" for 1 and "random" for anything else.
   */
  function ChannelNameById(idToName: map<int, string>, id: int): (r: string)
    ensures id in idToName && idToName[id] != "" ==> r == idToName[id]
    ensures !(id in idToName && idToName[id] != "") ==> r == (if id == 1 then "general" else "random")
    ensures r != ""
  {
    if id in idToName && idToName[id] != "" then idToName[id]
    else if id == 1 then "general" else "random"
  }

  /** The two maps are inverse to each other on their entries. */
  ghost predicate Inverse(nameToId: map<string, int>, idToName: map<int, string>) {
    && (forall n :: n in nameToId ==> nameToId[n] in idToName && idToName[nameToId[n]] == n)
    && (forall i :: i in idToName ==> idToName[i] in nameToId && nameToId[idToName[i]] == i)
  }

  /**
   * With inverse maps, mapping a name to its id and back gives the name,
   * for every mapped name and for the two fallback names whenever the
   * fallback ids are not taken by other names.
   */
  lemma NameIdRoundTrip(nameToId: map<string, int>, idToName: map<int, string>, name: string)
    requires Inverse(nameToId, idToName)
    requires name != ""
    requires name in nameToId || (name == "general" && 1 !in idToName)
    ensures ChannelNameById(idToName, ChannelIdByName(nameToId, name)) == name
  {
  }

  /** The initial maps are inverse to each other. */
  lemma InitialMapsInverse()
    ensures Inverse(InitialNameToId, InitialIdToName)
  {
  }

  /** The properties every plain object inherits from `Object.prototype`. */
  const InheritedKeys: set<string> := {
    "constructor", "hasOwnProperty", "isPrototypeOf", "propertyIsEnumerable",
    "toLocaleString", "toString", "valueOf", "__proto__",
    "__defineGetter__", "__defineSetter__", "__lookupGetter__", "__lookupSetter__"}

  /** What `getChannelIdByName` returns: a channel id, or a member inherited from the prototype. */
  datatype ChannelLookup = ChannelId(id: int) | InheritedMember(key: string)

  /**
   * `getChannelIdByName` as written: `channelNameToId[name]` also finds the
   * members every object inherits, which are not `undefined`, so for a name
   * such as "toString" the inherited function is returned instead of the
   * fallback id.
   */
  function ChannelIdByNameAsWritten(nameToId: map<string, int>, name: string): (r: ChannelLookup)
    ensures r.InheritedMember? <==> name !in nameToId && name in InheritedKeys
    ensures r.ChannelId? ==> r.id == ChannelIdByName(nameToId, name)
  {
    if name in nameToId then ChannelId(nameToId[name])
    else if name in InheritedKeys then InheritedMember(name)
    else ChannelId(if name == "general" then 1 else 2)
  }

  /** A channel called "toString" gets no channel id from the lookup as written. */
  lemma InheritedNameHasNoChannelId()
    ensures ChannelIdByNameAsWritten(InitialNameToId, "toString") == InheritedMember("toString")
    ensures ChannelIdByName(InitialNameToId, "toString") == 2
  {
  }

  /**
   * The own-key lookup: every name gets the id it is mapped to or one of
   * the two fallback ids, so every channel message carries a channel id.
   */
  lemma EveryNameHasChannelId(nameToId: map<string, int>, name: string)
    ensures var r := ChannelIdByName(nameToId, name);
      (name in nameToId && r == nameToId[name]) || (name !in nameToId && (r == 1 || r == 2))
  {
  }

  /** Unknown names all fall back to channel 2, so the mapping does not separate them. */
  lemma UnknownNamesShareId(a: string, b: string)
    requires a !in InitialNameToId && b !in InitialNameToId
    ensures ChannelIdByName(InitialNameToId, a) == ChannelIdByName(InitialNameToId, b) == 2
  {
  }

  // ---------------------------------------------------------------------
  // Mute storage key (script.js:94-97)
  // ---------------------------------------------------------------------

  const MutePrefix: string := "tgMute:"

  /** The part of the key naming the server: its id as a string, or "none". */
  function ServerPart(serverId: Option<JsId>): string {
    match serverId
    case Some(id) => IdToString(id)
    case None => "none"
  }

  /** `getMuteStorageKey`: "tgMute:" + server part + ":" + channel name. */
  function MuteStorageKey(serverId: Option<JsId>, channelName: string): (r: string)
    ensures |r| == |MutePrefix| + |ServerPart(serverId)| + 1 + |channelName|
    ensures r[..|MutePrefix|] == MutePrefix
    ensures r[|r| - |channelName|..] == channelName
    ensures r[|r| - |channelName| - 1] == ':'
  {
    MutePrefix + ServerPart(serverId) + ":" + channelName
  }

  predicate NoColon(s: string) {
    forall i :: 0 <= i < |s| ==> s[i] != ':'
  }

  /**
   * When server ids print without ':', two keys are equal only for the same
   * server and the same channel: the stored mute flags never clash.
   */
  lemma MuteKeyInjective(a: Option<JsId>, b: Option<JsId>, c1: string, c2: string)
    requires NoColon(ServerPart(a)) && NoColon(ServerPart(b))
    requires MuteStorageKey(a, c1) == MuteStorageKey(b, c2)
    ensures ServerPart(a) == ServerPart(b) && c1 == c2
  {
    var sa, sb := ServerPart(a), ServerPart(b);
    var k1, k2 := MuteStorageKey(a, c1), MuteStorageKey(b, c2);
    var p := |MutePrefix|;
    assert forall i :: 0 <= i < |sa| ==> k1[p + i] == sa[i];
    assert forall i :: 0 <= i < |sb| ==> k2[p + i] == sb[i];
    assert k1[p + |sa|] == ':' && k2[p + |sb|] == ':';
    assert sa == k1[p..p + |sa|] == k2[p..p + |sb|] == sb;
    assert c1 == k1[p + |sa| + 1..] == k2[p + |sb| + 1..] == c2;
  }

  // ---------------------------------------------------------------------
  // Server ownership (script.js:83-92)
  // ---------------------------------------------------------------------

  datatype Server = Server(
    name: Option<string>,
    ownerId: Option<JsId>,
    owner: Option<JsId>,
    creatorId: Option<JsId>,
    userId: Option<JsId>)

  datatype User = User(id: JsId, username: string)

  /** The fields the owner may be stored in, in the order they are consulted. */
  function OwnerFields(s: Server): seq<Option<JsId>> {
    [s.ownerId, s.owner, s.creatorId, s.userId]
  }

  /** `getServerOwnerId`: the first owner field that is present, or null. */
  function ServerOwnerId(server: Option<Server>): (r: Option<JsId>)
    ensures server.None? ==> r.None?
    ensures server.Some? && r.Some? ==>
      exists k :: 0 <= k < 4 && OwnerFields(server.value)[k] == r
        && forall j :: 0 <= j < k ==> OwnerFields(server.value)[j].None?
    ensures server.Some? && r.None? ==> forall k :: 0 <= k < 4 ==> OwnerFields(server.value)[k].None?
  {
    match server
    case None => None
    case Some(s) =>
      var f := OwnerFields(s);
      assert f[0] == s.ownerId && f[1] == s.owner && f[2] == s.creatorId && f[3] == s.userId;
      if s.ownerId.Some? then s.ownerId
      else if s.owner.Some? then s.owner
      else if s.creatorId.Some? then s.creatorId
      else s.userId
  }

  /**
   * `isCurrentServerOwnedByUser`: a truthy owner id whose string form equals
   * the string form of the current user's id.
   */
  function IsOwnedBy(server: Option<Server>, user: Option<User>): (r: bool)
    ensures r ==> server.Some? && user.Some?
    ensures r ==> ServerOwnerId(server).Some? && Truthy(ServerOwnerId(server).value)
  {
    var owner := ServerOwnerId(server);
    if owner.None? || !Truthy(owner.value) || user.None? then false
    else IdToString(owner.value) == IdToString(user.value.id)
  }

  /** Numeric ids: the user owns the server exactly when the ids are equal and not 0. */
  lemma OwnedNumeric(s: Server, u: User, a: int, b: int)
    requires ServerOwnerId(Some(s)) == Some(Num(a)) && u.id == Num(b)
    ensures IsOwnedBy(Some(s), Some(u)) <==> a == b && a != 0
  {
    if IsOwnedBy(Some(s), Some(u)) {
      IntToStringInjective(a, b);
    }
  }

  /** A numeric owner id matches the same id sent as a string. */
  lemma OwnedAcrossTypes(s: Server, u: User, n: int)
    requires ServerOwnerId(Some(s)) == Some(Num(n)) && n != 0
    requires u.id == Str(IntToString(n))
    ensures IsOwnedBy(Some(s), Some(u))
  {
  }

  // ---------------------------------------------------------------------
  // Server finder (script.js:170-176)
  // ---------------------------------------------------------------------

  const FindLimit: nat := 12

  function ServerName(s: Server): string {
    s.name.GetOr("")
  }

  /** The finder's test: an empty query matches all, else the lower-cased name contains it. */
  predicate NameMatches(s: Server, q: string) {
    q == "" || Includes(ToLower(ServerName(s)), q)
  }

  /** The normalised query: `String(query || '').trim().toLowerCase()`. */
  function FindQuery(query: Option<string>): string {
    ToLower(Trim(query.GetOr("")))
  }

  /** `servers.filter(...)`: the matching servers, in their original order. */
  function FilterServers(servers: seq<Server>, q: string): (r: seq<Server>)
    ensures |r| <= |servers|
    ensures forall s :: s in r <==> s in servers && NameMatches(s, q)
    ensures q == "" ==> r == servers
  {
    if servers == [] then []
    else
      var rest := FilterServers(servers[1..], q);
      assert servers == [servers[0]] + servers[1..];
      if NameMatches(servers[0], q) then [servers[0]] + rest else rest
  }

  /** Filtering a list split in two filters each part, in order. */
  lemma {:induction false} FilterServersAppend(a: seq<Server>, b: seq<Server>, q: string)
    ensures FilterServers(a + b, q) == FilterServers(a, q) + FilterServers(b, q)
    decreases |a|
  {
    if a != [] {
      assert (a + b)[1..] == a[1..] + b;
      FilterServersAppend(a[1..], b, q);
    } else {
      assert a + b == b;
    }
  }

  /** The finder's list: the first twelve matching servers. */
  function FindServers(servers: seq<Server>, query: Option<string>): (r: seq<Server>)
    ensures |r| == (var n := |FilterServers(servers, FindQuery(query))|; if n <= FindLimit then n else FindLimit)
    ensures forall s :: s in r ==> s in servers && NameMatches(s, FindQuery(query))
    ensures r == FilterServers(servers, FindQuery(query))[..|r|]
    ensures |r| < FindLimit ==>
      forall s :: s in servers && NameMatches(s, FindQuery(query)) ==> s in r
  {
    var all := FilterServers(servers, FindQuery(query));
    if |all| <= FindLimit then all
    else
      var r := all[..FindLimit];
      assert forall s :: s in r ==> s in all;
      r
  }

  /** A blank query lists the first twelve servers unfiltered. */
  lemma BlankQueryListsFirst(servers: seq<Server>, query: Option<string>)
    requires AllSpace(query.GetOr(""))
    ensures FindServers(servers, query) ==
      servers[..if |servers| <= FindLimit then |servers| else FindLimit]
  {
    TrimEmpty(query.GetOr(""));
  }

  // ---------------------------------------------------------------------
  // User search (script.js:568-584)
  // ---------------------------------------------------------------------

  /** The search's test: the lower-cased name contains the lower-cased query, and it is not me. */
  predicate UserMatches(u: User, q: string, me: JsId) {
    Includes(ToLower(u.username), ToLower(q)) && u.id != me
  }

  function FilterUsers(users: seq<User>, q: string, me: JsId): (r: seq<User>)
    ensures |r| <= |users|
    ensures forall u :: u in r <==> u in users && UserMatches(u, q, me)
  {
    if users == [] then []
    else
      var rest := FilterUsers(users[1..], q, me);
      assert users == [users[0]] + users[1..];
      if UserMatches(users[0], q, me) then [users[0]] + rest else rest
  }

  /** Filtering a list split in two filters each part, in order. */
  lemma {:induction false} FilterUsersAppend(a: seq<User>, b: seq<User>, q: string, me: JsId)
    ensures FilterUsers(a + b, q, me) == FilterUsers(a, q, me) + FilterUsers(b, q, me)
    decreases |a|
  {
    if a != [] {
      assert (a + b)[1..] == a[1..] + b;
      FilterUsersAppend(a[1..], b, q, me);
    } else {
      assert a + b == b;
    }
  }

  /**
   * `searchUsers`: nothing happens for a blank query; otherwise the users
   * whose name contains the trimmed query, ignoring case, except the
   * current user.
   */
  function SearchUsers(users: seq<User>, query: string, me: JsId): (r: Option<seq<User>>)
    ensures r.None? <==> AllSpace(query)
    ensures r.Some? ==> forall u :: u in r.value <==> u in users && UserMatches(u, Trim(query), me)
    ensures r.Some? ==> forall u :: u in r.value ==> u.id != me
  {
    TrimEmpty(query);
    var q := Trim(query);
    if q == "" then None else Some(FilterUsers(users, q, me))
  }

  // ---------------------------------------------------------------------
  // sendMessage guards (script.js:1383-1411)
  // ---------------------------------------------------------------------

  datatype View = Friends | Dm | DmHome | ServerView

  datatype Outgoing =
    | SendDm(receiverId: JsId, text: string)
    | SendToChannel(channelId: int, text: string)

  /**
   * What a send does: `Ignored` returns before the input box is cleared;
   * `Submitted` clears it and emits at most one message.
   */
  datatype SendOutcome = Ignored | Submitted(emitted: Option<Outgoing>)

  function SendMessage(
    input: string, view: View, server: Option<Server>, user: Option<User>,
    connected: bool, dmUser: Option<JsId>, channel: string, nameToId: map<string, int>
  ): (r: SendOutcome)
    ensures r.Ignored? <==> AllSpace(input) || (view == ServerView && !IsOwnedBy(server, user))
    ensures r.Submitted? ==>
      (r.emitted.Some? <==> connected && ((view == Dm && dmUser.Some? && Truthy(dmUser.value)) || view == ServerView))
    ensures r.Submitted? && r.emitted.Some? ==> r.emitted.value.text == Trim(input) != ""
    ensures r.Submitted? && r.emitted.Some? && r.emitted.value.SendToChannel? ==>
      view == ServerView && IsOwnedBy(server, user)
      && r.emitted.value.channelId == ChannelIdByName(nameToId, channel)
    ensures r.Submitted? && r.emitted.Some? && r.emitted.value.SendDm? ==>
      view == Dm && dmUser == Some(r.emitted.value.receiverId)
  {
    TrimEmpty(input);
    var text := Trim(input);
    if text == "" then Ignored
    else if view == ServerView && !IsOwnedBy(server, user) then Ignored
    else if !connected then Submitted(None)
    else if view == Dm && dmUser.Some? && Truthy(dmUser.value) then Submitted(Some(SendDm(dmUser.value, text)))
    else if view == ServerView then Submitted(Some(SendToChannel(ChannelIdByName(nameToId, channel), text)))
    else Submitted(None)
  }
}

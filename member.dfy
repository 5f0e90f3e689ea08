/**
 * Members of a community (src/components/member/member.ts): the member
 * entity with its hydration from a JSON profile and its refresh from the
 * server, and the member collection built from a batch of profiles.
 */
module Members {
  import opened Js
  import opened Remote

  /**
   * Whatever the caller passed as the member's community. The thread code
   * passes the community object; the member collection passes the record's
   * `ndcId`, a plain value. The member only stores it.
   */
  datatype CommunityArg = Context(community: object) | Raw(value: Option<Value>)

  /** Reading the community's `id`, as `refresh` does to build its URL, does not throw. */
  predicate Addressable(c: CommunityArg) {
    c.Context? || !Nullish(c.value)
  }

  /** The data fields of a member; `None` is a field left `undefined`. */
  datatype MemberData = MemberData(
    id: Option<Value>,
    icon: Option<Value>,
    name: Option<Value>,
    onlineStatus: Option<Value>,
    membersCount: Option<Value>,
    reputation: Option<Value>,
    level: Option<Value>,
    createdTime: Option<Value>,
    modifiedTime: Option<Value>,
    blogsCount: Option<Value>,
    storiesCount: Option<Value>)

  /** The JSON keys `_set_object` reads. */
  const ProfileKeys: set<string> := {
    "uid", "icon", "nickname", "onlineStatus", "membersCount", "reputation",
    "level", "createdTime", "modifiedTime", "blogsCount", "storiesCount" }

  /** A member that knows only its id, as the constructor leaves it. */
  function Shell(id: Option<Value>): MemberData {
    MemberData(id, None, None, None, None, None, None, None, None, None, None)
  }

  /** The data `_set_object(object)` writes, under the profile's key names. */
  function Hydrate(record: Value): MemberData {
    MemberData(
      id := Field(record, "uid"),
      icon := Field(record, "icon"),
      name := Field(record, "nickname"),
      onlineStatus := Field(record, "onlineStatus"),
      membersCount := Field(record, "membersCount"),
      reputation := Field(record, "reputation"),
      level := Field(record, "level"),
      createdTime := Field(record, "createdTime"),
      modifiedTime := Field(record, "modifiedTime"),
      blogsCount := Field(record, "blogsCount"),
      storiesCount := Field(record, "storiesCount"))
  }

  /** The field a profile key is copied into, read back by its key name. */
  function ProfileField(d: MemberData, key: string): Option<Value> {
    if key == "uid" then d.id
    else if key == "icon" then d.icon
    else if key == "nickname" then d.name
    else if key == "onlineStatus" then d.onlineStatus
    else if key == "membersCount" then d.membersCount
    else if key == "reputation" then d.reputation
    else if key == "level" then d.level
    else if key == "createdTime" then d.createdTime
    else if key == "modifiedTime" then d.modifiedTime
    else if key == "blogsCount" then d.blogsCount
    else if key == "storiesCount" then d.storiesCount
    else None
  }

  /** Every profile key lands in its own field: the renaming `_set_object` applies. */
  lemma HydrateRenames(v: Value)
    ensures forall k :: k in ProfileKeys ==> ProfileField(Hydrate(v), k) == Field(v, k)
  {
  }

  /** A member written back as a JSON profile, one key per defined field. */
  function Serialize(d: MemberData): Value {
    Obj(map k | k in ProfileKeys && ProfileField(d, k).Some? :: ProfileField(d, k).value)
  }

  /** Serializing a member's known fields and hydrating from that gives the member back. */
  lemma HydrateSerialize(d: MemberData)
    ensures Hydrate(Serialize(d)) == d
  {
  }

  /** The serialized profile has exactly the defined fields, all under profile keys. */
  lemma SerializeKeys(d: MemberData)
    ensures Serialize(d).fields.Keys <= ProfileKeys
    ensures "uid" in Serialize(d).fields <==> d.id.Some?
  {
  }

  /** Fields outside the profile keys are ignored: two records that agree on those keys hydrate alike. */
  lemma HydrateIgnoresUnknownKeys(v: Value, w: Value)
    requires forall k :: k in ProfileKeys ==> Field(v, k) == Field(w, k)
    ensures Hydrate(v) == Hydrate(w)
  {
  }

  /** The effect of `_set_object(object)` on a member's data: all fields are overwritten, or nothing happens when it throws. */
  function Overwrite(d: MemberData, record: Option<Value>): MemberData {
    if Nullish(record) then d else Hydrate(record.value)
  }

  /** Hydrating twice with the same record is the same as hydrating once. */
  lemma OverwriteIdempotent(d: MemberData, record: Option<Value>)
    ensures Overwrite(Overwrite(d, record), record) == Overwrite(d, record)
  {
  }

  /** A successful hydration does not depend on what the member held before. */
  lemma OverwriteForgetsPrevious(d: MemberData, e: MemberData, record: Option<Value>)
    requires !Nullish(record)
    ensures Overwrite(d, record) == Overwrite(e, record)
  {
  }

  function ProfileCall(uid: Option<Value>): Call {
    Call(Get, UserProfile(uid))
  }

  /**
   * What `refresh` of a member with id `uid` ends with: the hydrated
   * `userProfile` of the server's answer, or the TypeError `_set_object`
   * throws when that answer has no usable `userProfile`.
   */
  function ProfileOutcome(server: Server, uid: Option<Value>): Result<MemberData> {
    match Payload(server(ProfileCall(uid)), "userProfile")
    case Ok(profile) => Ok(Hydrate(profile))
    case Err(e) => Err(e)
  }

  /** After a successful refresh the member's id is the `uid` of the server's profile. */
  lemma ProfileOutcomeId(server: Server, uid: Option<Value>)
    requires ProfileOutcome(server, uid).Ok?
    ensures var body := server(ProfileCall(uid));
      body.Obj? && "userProfile" in body.fields &&
      ProfileOutcome(server, uid).value.id == Field(body.fields["userProfile"], "uid")
  {
  }

  /** A server that answers a profile request for `uid` with a profile whose `uid` is that same value. */
  ghost predicate ConsistentProfiles(server: Server) {
    forall uid :: ProfileOutcome(server, uid).Ok? ==> ProfileOutcome(server, uid).value.id == uid
  }

  class Member {
    const client: Client
    const community: CommunityArg

    var id: Option<Value>
    var icon: Option<Value>
    var name: Option<Value>
    var onlineStatus: Option<Value>
    var membersCount: Option<Value>
    var reputation: Option<Value>
    var level: Option<Value>
    var createdTime: Option<Value>
    var modifiedTime: Option<Value>
    var blogsCount: Option<Value>
    var storiesCount: Option<Value>

    function Data(): MemberData
      reads this
    {
      MemberData(id, icon, name, onlineStatus, membersCount, reputation, level,
                 createdTime, modifiedTime, blogsCount, storiesCount)
    }

    constructor (client: Client, community: CommunityArg, id: Option<Value>)
      ensures this.client == client && this.community == community
      ensures Data() == Shell(id)
    {
      this.client := client;
      this.community := community;
      this.id := id;
      icon, name, onlineStatus, membersCount, reputation, level := None, None, None, None, None, None;
      createdTime, modifiedTime, blogsCount, storiesCount := None, None, None, None;
    }

    /** Overwrites every data field at once. */
    method Assign(d: MemberData)
      modifies this
      ensures Data() == d
    {
      id, icon, name, onlineStatus, membersCount, reputation := d.id, d.icon, d.name, d.onlineStatus, d.membersCount, d.reputation;
      level, createdTime, modifiedTime, blogsCount, storiesCount := d.level, d.createdTime, d.modifiedTime, d.blogsCount, d.storiesCount;
    }

    /** `_set_object`: overwrite every data field from a JSON profile and return this member. */
    method SetObject(record: Option<Value>) returns (r: Result<Member>)
      modifies this
      ensures r.Err? <==> Nullish(record)
      ensures r.Err? ==> r.error == TypeError
      ensures r.Ok? ==> r.value == this
      ensures Data() == Overwrite(old(Data()), record)
    {
      if Nullish(record) {
        return Err(TypeError);
      }
      Assign(Hydrate(record.value));
      r := Ok(this);
    }

    /**
     * `refresh`: fetch this member's profile once and hydrate from it. The URL
     * names `community.id`, so a member whose community is `undefined` or
     * `null` throws before any request.
     */
    method Refresh() returns (r: Result<Member>)
      modifies this, client
      ensures !Addressable(community) ==>
        r == Err(TypeError) && client.trace == old(client.trace) && Data() == old(Data())
      ensures Addressable(community) ==> client.trace == old(client.trace) + [ProfileCall(old(id))]
      ensures Addressable(community) && ProfileOutcome(client.server, old(id)).Ok? ==>
        r == Ok(this) && Data() == ProfileOutcome(client.server, old(id)).value
      ensures Addressable(community) && ProfileOutcome(client.server, old(id)).Err? ==>
        r == Err(ProfileOutcome(client.server, old(id)).error) && Data() == old(Data())
    {
      if !Addressable(community) {
        return Err(TypeError);
      }
      var body := client.Request(ProfileCall(id));
      var profile := Prop(Some(body), "userProfile");
      if profile.Err? {
        return Err(profile.error);
      }
      r := SetObject(profile.value);
    }
  }

  /** No entity appears twice: each position holds a reference that no earlier position holds. */
  ghost predicate Distinct<T>(s: seq<T>) {
    DistinctBelow(s, |s|)
  }

  /** Among the first `n` positions, each holds a reference that no earlier position holds. */
  ghost predicate DistinctBelow<T>(s: seq<T>, n: nat)
    requires n <= |s|
  {
    n == 0 || (DistinctBelow(s, n - 1) && forall k :: 0 <= k < n - 1 ==> s[k] != s[n - 1])
  }

  /** `DistinctBelow` depends only on the first `n` positions. */
  lemma {:induction false} DistinctBelowPrefix<T>(s: seq<T>, t: seq<T>, n: nat)
    requires n <= |s| && n <= |t| && s[..n] == t[..n]
    ensures DistinctBelow(s, n) == DistinctBelow(t, n)
  {
    if n > 0 {
      assert s[..n - 1] == s[..n][..n - 1] && t[..n - 1] == t[..n][..n - 1];
      DistinctBelowPrefix(s, t, n - 1);
      assert forall k :: 0 <= k < n ==> s[k] == s[..n][k] && t[k] == t[..n][k];
    }
  }

  /** `DistinctBelow` says the first `n` positions hold pairwise distinct references. */
  lemma {:induction false} DistinctBelowElements<T>(s: seq<T>, n: nat)
    requires n <= |s|
    ensures DistinctBelow(s, n) <==> forall i, j :: 0 <= i < j < n ==> s[i] != s[j]
  {
    if n > 0 {
      DistinctBelowElements(s, n - 1);
    }
  }

  /** `Distinct` says the positions hold pairwise distinct references. */
  lemma DistinctElements<T>(s: seq<T>)
    ensures Distinct(s) <==> forall i, j :: 0 <= i < j < |s| ==> s[i] != s[j]
  {
    DistinctBelowElements(s, |s|);
  }

  /** Appending keeps the references distinct exactly when the new one is not there yet. */
  lemma DistinctAppend<T>(s: seq<T>, x: T)
    ensures Distinct(s + [x]) <==> Distinct(s) && x !in s
  {
    var t := s + [x];
    assert t[..|s|] == s[..|s|];
    DistinctBelowPrefix(t, s, |s|);
    assert forall k :: 0 <= k < |s| ==> t[k] == s[k];
  }

  /** The ids of a sequence of members, position by position. */
  function MemberIds(ms: seq<Member>): (ids: seq<Option<Value>>)
    reads ms
    ensures |ids| == |ms|
  {
    if ms == [] then [] else MemberIds(ms[..|ms| - 1]) + [ms[|ms| - 1].id]
  }

  /** Position `i` of the ids is the id of the member at position `i`. */
  lemma {:induction false} MemberIdsElements(ms: seq<Member>)
    ensures forall i :: 0 <= i < |ms| ==> MemberIds(ms)[i] == ms[i].id
  {
    if ms != [] {
      MemberIdsElements(ms[..|ms| - 1]);
    }
  }

  /** The ids of a sequence of members depend on nothing but each member's `id` field. */
  twostate lemma {:induction false} MemberIdsFrame(ms: seq<Member>)
    requires forall i :: 0 <= i < |ms| ==> ms[i].id == old(ms[i].id)
    ensures MemberIds(ms) == old(MemberIds(ms))
  {
    if ms != [] {
      MemberIdsFrame(ms[..|ms| - 1]);
    }
  }

  /** Appending to a member sequence whose members kept their ids extends the ids. */
  twostate lemma MemberIdsGrow(before: seq<Member>, new after: seq<Member>)
    requires before <= after
    requires forall i :: 0 <= i < |before| ==> before[i].id == old(before[i].id)
    ensures old(MemberIds(before)) <= MemberIds(after)
  {
    MemberIdsFrame(before);
    MemberIdsElements(before);
    MemberIdsElements(after);
  }

  /** `members.findIndex(m => m.id === key)`, the linear search of a member collection. */
  method FindMember(ms: seq<Member>, key: Option<Value>) returns (index: int)
    ensures index == IndexOf(MemberIds(ms), key)
  {
    MemberIdsElements(ms);
    index := 0;
    while index < |ms|
      invariant 0 <= index <= |ms|
      invariant forall k :: 0 <= k < index ==> !StrictEq(ms[k].id, key)
    {
      if StrictEq(ms[index].id, key) {
        return;
      }
      index := index + 1;
    }
    index := -1;
  }

  /** An ordered collection of members (the storage base class `IAminoStorage`, which is not part of this model, specialised to members). */
  class MemberStorage {
    const client: Client
    var items: seq<Member>

    constructor Empty(client: Client)
      ensures this.client == client && items == []
    {
      this.client := client;
      items := [];
    }

    /** Appends a member and returns the position it now holds. */
    method Push(m: Member) returns (index: nat)
      modifies this
      ensures items == old(items) + [m]
      ensures index == |old(items)| && items[index] == m
    {
      index := |items|;
      items := items + [m];
    }

    /**
     * The collection constructor: one member per record, in record order,
     * each built with the record's `ndcId` as community and its `uid` as id,
     * then hydrated from the record. No request is issued.
     */
    static method Build(client: Client, records: Option<seq<Value>>) returns (r: Result<MemberStorage>)
      ensures r.Err? <==> records.Some? && Null in records.value
      ensures r.Err? ==> r.error == TypeError
      ensures r.Ok? ==> fresh(r.value) && r.value.client == client
      ensures r.Ok? && records.None? ==> r.value.items == []
      ensures r.Ok? && records.Some? ==> |r.value.items| == |records.value|
      ensures r.Ok? && records.Some? ==> forall i :: 0 <= i < |records.value| ==>
        fresh(r.value.items[i]) && r.value.items[i].client == client &&
        r.value.items[i].community == Raw(Field(records.value[i], "ndcId")) &&
        r.value.items[i].Data() == Hydrate(records.value[i])
      ensures r.Ok? ==> Distinct(r.value.items)
      ensures client.trace == old(client.trace)
    {
      var storage := new MemberStorage.Empty(client);
      if records.None? {
        return Ok(storage);
      }
      var elements := records.value;
      var i := 0;
      while i < |elements|
        invariant 0 <= i <= |elements|
        invariant Null !in elements[..i]
        invariant fresh(storage) && storage.client == client && |storage.items| == i
        invariant forall k :: 0 <= k < i ==>
          fresh(storage.items[k]) && storage.items[k].client == client &&
          storage.items[k].community == Raw(Field(elements[k], "ndcId")) &&
          storage.items[k].Data() == Hydrate(elements[k])
        invariant Distinct(storage.items)
      {
        var element := elements[i];
        var ndcId := Prop(Some(element), "ndcId");
        if ndcId.Err? {
          return Err(ndcId.error);
        }
        var uid := Prop(Some(element), "uid");
        var member := new Member(client, Raw(ndcId.value), uid.value);
        var hydrated := member.SetObject(Some(element));
        DistinctAppend(storage.items, member);
        var _ := storage.Push(member);
        assert elements[..i + 1] == elements[..i] + [element];
        i := i + 1;
      }
      assert elements[..i] == elements;
      r := Ok(storage);
    }
  }
}

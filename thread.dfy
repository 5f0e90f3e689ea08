/**
 * Chat threads (src/components/thread/thread.ts): the thread entity with its
 * hydration, refresh and ban permission gate; the thread collection whose
 * constructor reconciles a batch of thread records with the community-wide
 * cache; and the community context that owns that cache. The community and
 * its cache are defined elsewhere and are not part of this model: here they
 * are just the two cache collections and the signed-in member `me`.
 */
module Threads {
  import opened Js
  import opened Remote
  import opened Members

  /** `thread_type`: the kinds of chat thread and their wire codes. */
  datatype ThreadType = Private | Group | Public {
    function Code(): int {
      match this
      case Private => 0
      case Group => 1
      case Public => 2
    }
  }

  /** Reads a raw `type` field as a `thread_type`, if it is one of the three codes. */
  function TypeOf(raw: Option<Value>): (t: Option<ThreadType>)
    ensures t.Some? <==> raw.Some? && raw.value.Num? && 0 <= raw.value.n <= 2
  {
    match raw
    case Some(Num(0)) => Some(Private)
    case Some(Num(1)) => Some(Group)
    case Some(Num(2)) => Some(Public)
    case _ => None
  }

  /** The wire code of a thread type reads back as that type, and only its own code does. */
  lemma TypeCodeRoundTrip(t: ThreadType, raw: Option<Value>)
    ensures TypeOf(Some(Num(t.Code()))) == Some(t)
    ensures TypeOf(raw) == Some(t) ==> raw == Some(Num(t.Code()))
  {
  }

  /** The data fields of a thread; `None` is a field left `undefined`. */
  datatype ThreadData = ThreadData(
    id: Option<Value>,
    icon: Option<Value>,
    title: Option<Value>,
    description: Option<Value>,
    membersQuota: Option<Value>,
    membersCount: Option<Value>,
    keywords: Option<Value>,
    kind: Option<Value>)     // the `type` field

  /** A thread that knows only its id, as the constructor leaves it. */
  function ThreadShell(id: Option<Value>): ThreadData {
    ThreadData(id, None, None, None, None, None, None, None)
  }

  /** The JSON keys of a thread record that `_set_object` reads. */
  const RecordKeys: set<string> :=
    {"threadId", "icon", "title", "content", "membersQuota", "membersCount", "keywords", "type"}

  /** The field a record key is copied into, read back by its key name. */
  function RecordField(d: ThreadData, key: string): Option<Value> {
    if key == "threadId" then d.id
    else if key == "icon" then d.icon
    else if key == "title" then d.title
    else if key == "content" then d.description
    else if key == "membersQuota" then d.membersQuota
    else if key == "membersCount" then d.membersCount
    else if key == "keywords" then d.keywords
    else if key == "type" then d.kind
    else None
  }

  /** The data fields `_set_object(record, ...)` writes. */
  function HydrateThread(record: Value): ThreadData {
    ThreadData(
      id := Field(record, "threadId"),
      icon := Field(record, "icon"),
      title := Field(record, "title"),
      description := Field(record, "content"),
      membersQuota := Field(record, "membersQuota"),
      membersCount := Field(record, "membersCount"),
      keywords := Field(record, "keywords"),
      kind := Field(record, "type"))
  }

  /** Every record key lands in its own field: the renaming `_set_object` applies. */
  lemma HydrateThreadRenames(v: Value)
    ensures forall k :: k in RecordKeys ==> RecordField(HydrateThread(v), k) == Field(v, k)
  {
  }

  /** A thread written back as a JSON record, one key per defined field. */
  function SerializeThread(d: ThreadData): Value {
    Obj(map k | k in RecordKeys && RecordField(d, k).Some? :: RecordField(d, k).value)
  }

  /** Serializing a thread's known fields and hydrating from that gives the thread back. */
  lemma HydrateSerializeThread(d: ThreadData)
    ensures HydrateThread(SerializeThread(d)) == d
  {
  }

  /** The property names of an `AminoThread` instance that hold JSON data. */
  const InstanceKeys: set<string> :=
    {"id", "icon", "title", "description", "membersQuota", "membersCount", "keywords", "type"}

  function InstanceField(d: ThreadData, key: string): Option<Value> {
    if key == "id" then d.id
    else if key == "icon" then d.icon
    else if key == "title" then d.title
    else if key == "description" then d.description
    else if key == "membersQuota" then d.membersQuota
    else if key == "membersCount" then d.membersCount
    else if key == "keywords" then d.keywords
    else if key == "type" then d.kind
    else None
  }

  /**
   * An `AminoThread` instance read as a plain object, as `_set_object` reads
   * the cached thread it is handed. Its reference-valued properties (client,
   * community, creator) are left out: `_set_object` given a creator reads none.
   */
  function InstanceView(d: ThreadData): Value {
    Obj(map k | k in InstanceKeys && InstanceField(d, k).Some? :: InstanceField(d, k).value)
  }

  /** The data of a thread hydrated from another thread instance, as the reconciliation does. */
  function CopyOf(d: ThreadData): ThreadData {
    HydrateThread(InstanceView(d))
  }

  /**
   * A copy keeps icon, title, quota, count, keywords and type, but loses its
   * id and description: an instance has no `threadId` or `content` property.
   */
  lemma CopyLosesIdAndDescription(d: ThreadData)
    ensures CopyOf(d) == d.(id := None, description := None)
  {
  }

  /** `record.author.uid` on a record that is not `undefined`/`null`. */
  function AuthorUid(record: Value): (r: Result<Option<Value>>)
    ensures record != Null ==>
      (r.Ok? <==> !Nullish(Field(record, "author"))) &&
      (r.Ok? ==> r.value == Field(Field(record, "author").value, "uid"))
    ensures r.Err? ==> r.error == TypeError
  {
    match Prop(Some(record), "author")
    case Err(e) => Err(e)
    case Ok(author) => Prop(author, "uid")
  }

  function ThreadCall(id: Option<Value>): Call {
    Call(Get, ChatThread(id))
  }

  /** The `thread` payload of the server's answer about `id`, unless `_set_object` would throw on it. */
  function ThreadPayload(server: Server, id: Option<Value>): Result<Value> {
    Payload(server(ThreadCall(id)), "thread")
  }

  /** The author uid of that payload: the member `refresh` then fetches. */
  function RefreshAuthor(server: Server, id: Option<Value>): Result<Option<Value>> {
    match ThreadPayload(server, id)
    case Err(e) => Err(e)
    case Ok(payload) => AuthorUid(payload)
  }

  /** `refresh` of a thread with id `id` returns normally. */
  predicate RefreshSucceeds(server: Server, id: Option<Value>) {
    RefreshAuthor(server, id).Ok? && ProfileOutcome(server, RefreshAuthor(server, id).value).Ok?
  }

  /**
   * The requests `refresh` of a thread with id `id` issues: the thread,
   * then its author's profile unless hydration threw before that fetch.
   */
  function ThreadRefreshCalls(server: Server, id: Option<Value>): (calls: seq<Call>)
    ensures 1 <= |calls| <= 2 && calls[0] == ThreadCall(id)
    ensures |calls| == 2 <==> RefreshAuthor(server, id).Ok?
  {
    [ThreadCall(id)] +
    (if RefreshAuthor(server, id).Ok? then [ProfileCall(RefreshAuthor(server, id).value)] else [])
  }

  /** Thread `t` holds what a successful `refresh` of a thread with id `id` leaves. */
  ghost predicate Refreshed(t: Thread, server: Server, id: Option<Value>)
    reads t, if t.creator.Some? then {t.creator.value} else {}
  {
    && RefreshSucceeds(server, id)
    && t.Data() == HydrateThread(ThreadPayload(server, id).value)
    && t.creator.Some?
    && t.creator.value.Data() == ProfileOutcome(server, RefreshAuthor(server, id).value).value
  }

  /** After a refresh the thread's id is the `threadId` of the server's payload, not the id it was fetched under. */
  lemma RefreshedId(t: Thread, server: Server, id: Option<Value>)
    requires Refreshed(t, server, id)
    ensures t.id == Field(ThreadPayload(server, id).value, "threadId")
  {
  }

  const PermissionMessage: string := "You do not have sufficient permissions to perform this operation."

  /** `Number(rejoin)`. */
  function AllowRejoin(rejoin: bool): (n: int)
    ensures n == 0 || n == 1
    ensures n == 1 <==> rejoin
  {
    if rejoin then 1 else 0
  }

  /**
   * The permission gate of `ban`: the DELETE to issue when the thread's
   * creator is the signed-in member, the permission error otherwise.
   */
  function BanRequest(creatorId: Option<Value>, meId: Option<Value>, threadId: Option<Value>,
                      memberId: Option<Value>, rejoin: bool): (r: Result<Call>)
    ensures r.Ok? <==> StrictEq(creatorId, meId)
    ensures r.Err? ==> r.error == Forbidden(PermissionMessage)
    ensures r.Ok? ==> r.value.verb == Delete && r.value.route.ThreadMember?
    ensures r.Ok? ==> r.value.route.threadId == threadId && r.value.route.memberId == memberId
    ensures r.Ok? ==> (r.value.route.allowRejoin == 1 <==> rejoin) && r.value.route.allowRejoin in {0, 1}
  {
    if StrictEq(creatorId, meId) then Ok(Call(Delete, ThreadMember(threadId, memberId, AllowRejoin(rejoin))))
    else Err(Forbidden(PermissionMessage))
  }

  /** The community-wide cache: one collection of threads and one of members. */
  class Cache {
    const threads: ThreadStorage
    const members: MemberStorage

    constructor (client: Client)
      ensures fresh(threads) && fresh(members)
      ensures threads.client == client && members.client == client
      ensures threads.items == [] && members.items == []
    {
      threads := new ThreadStorage.Empty(client);
      members := new MemberStorage.Empty(client);
    }
  }

  /** The community context, reduced to what threads use: its cache and the signed-in member. */
  class Community {
    const cache: Cache
    var me: Option<Member>

    constructor (client: Client, me: Option<Member>)
      ensures fresh(cache) && fresh(cache.threads) && fresh(cache.members)
      ensures cache.threads.items == [] && cache.members.items == []
      ensures this.me == me
    {
      cache := new Cache(client);
      this.me := me;
    }
  }

  class Thread {
    const client: Client
    const community: Community

    var id: Option<Value>
    var icon: Option<Value>
    var title: Option<Value>
    var description: Option<Value>
    var membersQuota: Option<Value>
    var membersCount: Option<Value>
    var keywords: Option<Value>
    var kind: Option<Value>
    var creator: Option<Member>

    function Data(): ThreadData
      reads this
    {
      ThreadData(id, icon, title, description, membersQuota, membersCount, keywords, kind)
    }

    constructor (client: Client, community: Community, id: Option<Value>)
      ensures this.client == client && this.community == community
      ensures Data() == ThreadShell(id) && creator == None
    {
      this.client := client;
      this.community := community;
      this.id := id;
      icon, title, description, membersQuota, membersCount, keywords, kind := None, None, None, None, None, None, None;
      creator := None;
    }

    /** Overwrites the eight data fields at once. */
    method Assign(d: ThreadData)
      modifies this
      ensures Data() == d && creator == old(creator)
    {
      id, icon, title, description := d.id, d.icon, d.title, d.description;
      membersQuota, membersCount, keywords, kind := d.membersQuota, d.membersCount, d.keywords, d.kind;
    }

    /**
     * `_set_object(record, creator)`: overwrite the eight data fields from
     * the record, then take the given creator, or fetch the record's author
     * as a new member when none is given.
     */
    method SetObject(record: Option<Value>, creator: Option<Member>) returns (r: Result<Thread>)
      modifies this, client
      ensures r.Ok? ==> r.value == this
      ensures r.Err? ==> r.error == TypeError && this.creator == old(this.creator)
      ensures Nullish(record) ==>
        r.Err? && Data() == old(Data()) && client.trace == old(client.trace)
      ensures !Nullish(record) ==> Data() == HydrateThread(record.value)
      ensures !Nullish(record) && creator.Some? ==>
        r.Ok? && this.creator == creator && client.trace == old(client.trace)
      ensures !Nullish(record) && creator.None? && AuthorUid(record.value).Err? ==>
        r.Err? && client.trace == old(client.trace)
      ensures !Nullish(record) && creator.None? && AuthorUid(record.value).Ok? ==>
        var uid := AuthorUid(record.value).value;
        && client.trace == old(client.trace) + [ProfileCall(uid)]
        && (r.Ok? <==> ProfileOutcome(client.server, uid).Ok?)
        && (r.Ok? ==>
              && this.creator.Some? && fresh(this.creator.value)
              && this.creator.value.Data() == ProfileOutcome(client.server, uid).value
              && this.creator.value.client == client
              && this.creator.value.community == Context(community))
    {
      var threadId := Prop(record, "threadId");
      if threadId.Err? {
        return Err(threadId.error);
      }
      var v := record.value;
      Assign(HydrateThread(v));
      if creator.Some? {
        this.creator := creator;
      } else {
        var uid := AuthorUid(v);
        if uid.Err? {
          return Err(uid.error);
        }
        var author := new Member(client, Context(community), uid.value);
        var fetched := author.Refresh();
        if fetched.Err? {
          return Err(fetched.error);
        }
        this.creator := Some(author);
      }
      r := Ok(this);
    }

    /** `refresh`: fetch this thread once and hydrate from the answer, fetching its author too. */
    method Refresh() returns (r: Result<Thread>)
      modifies this, client
      ensures client.trace == old(client.trace) + ThreadRefreshCalls(client.server, old(id))
      ensures r.Ok? <==> RefreshSucceeds(client.server, old(id))
      ensures r.Ok? ==> r.value == this
      ensures r.Ok? ==> Refreshed(this, client.server, old(id))
      ensures r.Ok? ==> fresh(creator.value) && creator.value.client == client
      ensures r.Err? ==> r.error == TypeError && creator == old(creator)
      ensures ThreadPayload(client.server, old(id)).Err? ==> Data() == old(Data())
      ensures ThreadPayload(client.server, old(id)).Ok? ==>
        Data() == HydrateThread(ThreadPayload(client.server, old(id)).value)
    {
      var body := client.Request(ThreadCall(id));
      var payload := Prop(Some(body), "thread");
      if payload.Err? {
        return Err(payload.error);
      }
      r := SetObject(payload.value, None);
    }

    /** `ban`: remove `member` from the thread, permitted only to the thread's creator. */
    method Ban(member: Member, rejoin: bool) returns (r: Outcome)
      modifies client
      ensures creator.None? || community.me.None? ==>
        r == Fail(TypeError) && client.trace == old(client.trace)
      ensures creator.Some? && community.me.Some? ==>
        var request := BanRequest(creator.value.id, community.me.value.id, id, member.id, rejoin);
        && (request.Ok? ==> r == Pass && client.trace == old(client.trace) + [request.value])
        && (request.Err? ==> r == Fail(request.error) && client.trace == old(client.trace))
    {
      if creator.None? || community.me.None? {
        return Fail(TypeError);
      }
      var request := BanRequest(creator.value.id, community.me.value.id, id, member.id, rejoin);
      if request.Err? {
        return Fail(request.error);
      }
      var _ := client.Request(request.value);
      r := Pass;
    }
  }

  lemma ConcatAssoc<T>(a: seq<T>, b: seq<T>, c: seq<T>)
    ensures (a + b) + c == a + (b + c)
  {
  }

  /** The ids of a sequence of threads, position by position. */
  function ThreadIds(ts: seq<Thread>): (ids: seq<Option<Value>>)
    reads ts
    ensures |ids| == |ts|
  {
    if ts == [] then [] else ThreadIds(ts[..|ts| - 1]) + [ts[|ts| - 1].id]
  }

  /** Position `i` of the ids is the id of the thread at position `i`. */
  lemma {:induction false} ThreadIdsElements(ts: seq<Thread>)
    ensures forall i :: 0 <= i < |ts| ==> ThreadIds(ts)[i] == ts[i].id
  {
    if ts != [] {
      ThreadIdsElements(ts[..|ts| - 1]);
    }
  }

  /** The ids of a sequence of threads depend on nothing but each thread's `id` field. */
  twostate lemma {:induction false} ThreadIdsFrame(ts: seq<Thread>)
    requires forall i :: 0 <= i < |ts| ==> ts[i].id == old(ts[i].id)
    ensures ThreadIds(ts) == old(ThreadIds(ts))
  {
    if ts != [] {
      ThreadIdsFrame(ts[..|ts| - 1]);
    }
  }

  /** Appending to a thread sequence whose threads kept their ids extends the ids. */
  twostate lemma ThreadIdsGrow(before: seq<Thread>, new after: seq<Thread>)
    requires before <= after
    requires forall i :: 0 <= i < |before| ==> before[i].id == old(before[i].id)
    ensures old(ThreadIds(before)) <= ThreadIds(after)
  {
    ThreadIdsFrame(before);
    ThreadIdsElements(before);
    ThreadIdsElements(after);
  }

  /** The creators of a sequence of threads, position by position. */
  function Creators(ts: seq<Thread>): (cs: seq<Option<Member>>)
    reads ts
    ensures |cs| == |ts|
  {
    if ts == [] then [] else Creators(ts[..|ts| - 1]) + [ts[|ts| - 1].creator]
  }

  /** Position `i` of the creators is the creator of the thread at position `i`. */
  lemma {:induction false} CreatorsElements(ts: seq<Thread>)
    ensures forall i :: 0 <= i < |ts| ==> Creators(ts)[i] == ts[i].creator
  {
    if ts != [] {
      CreatorsElements(ts[..|ts| - 1]);
    }
  }

  /** The creators of a sequence of threads depend on nothing but each thread's `creator` field. */
  twostate lemma {:induction false} CreatorsFrame(ts: seq<Thread>)
    requires forall i :: 0 <= i < |ts| ==> ts[i].creator == old(ts[i].creator)
    ensures Creators(ts) == old(Creators(ts))
  {
    if ts != [] {
      CreatorsFrame(ts[..|ts| - 1]);
    }
  }

  /** `threads.findIndex(t => t.id === key)`, the linear search of a thread collection. */
  method FindThread(ts: seq<Thread>, key: Option<Value>) returns (index: int)
    ensures index == IndexOf(ThreadIds(ts), key)
  {
    ThreadIdsElements(ts);
    index := 0;
    while index < |ts|
      invariant 0 <= index <= |ts|
      invariant forall k :: 0 <= k < index ==> !StrictEq(ts[k].id, key)
    {
      if StrictEq(ts[index].id, key) {
        return;
      }
      index := index + 1;
    }
    index := -1;
  }

  /**
   * How one record of a batch was reconciled: the ids it was looked up by,
   * the thread and member it resolved to, whether each was found in the
   * cache, and the copy that went into the result.
   */
  datatype Resolution = Resolution(
    threadId: Option<Value>, thread: Thread, threadHit: bool,
    authorUid: Option<Value>, member: Member, memberHit: bool,
    copy: Thread)

  /** The ids a resolution was looked up by are the ones its record names. */
  predicate LookedUp(element: Value, res: Resolution) {
    res.threadId == Field(element, "threadId") && AuthorUid(element) == Ok(res.authorUid)
  }

  /** What one record appends to the thread cache: the refreshed thread on a miss, then the copy. */
  function ThreadAppends(res: Resolution): seq<Thread> {
    (if res.threadHit then [] else [res.thread]) + [res.copy]
  }

  /** What one record appends to the member cache: the refreshed member on a miss. */
  function MemberAppends(res: Resolution): seq<Member> {
    if res.memberHit then [] else [res.member]
  }

  /** The requests one record issues: a thread refresh on a thread miss, a profile fetch on a member miss. */
  function StepCalls(server: Server, res: Resolution): seq<Call> {
    (if res.threadHit then [] else ThreadRefreshCalls(server, res.threadId)) +
    (if res.memberHit then [] else [ProfileCall(res.authorUid)])
  }

  function AllThreadAppends(steps: seq<Resolution>): seq<Thread> {
    if steps == [] then [] else AllThreadAppends(steps[..|steps| - 1]) + ThreadAppends(steps[|steps| - 1])
  }

  function AllMemberAppends(steps: seq<Resolution>): seq<Member> {
    if steps == [] then [] else AllMemberAppends(steps[..|steps| - 1]) + MemberAppends(steps[|steps| - 1])
  }

  function AllCalls(server: Server, steps: seq<Resolution>): seq<Call> {
    if steps == [] then [] else AllCalls(server, steps[..|steps| - 1]) + StepCalls(server, steps[|steps| - 1])
  }

  function Copies(steps: seq<Resolution>): (copies: seq<Thread>)
    ensures |copies| == |steps|
    ensures forall i :: 0 <= i < |steps| ==> copies[i] == steps[i].copy
  {
    if steps == [] then [] else Copies(steps[..|steps| - 1]) + [steps[|steps| - 1].copy]
  }

  /** The member each record resolved to, as the creator its copy should have. */
  function Authors(steps: seq<Resolution>): (authors: seq<Option<Member>>)
    ensures |authors| == |steps|
    ensures forall i :: 0 <= i < |steps| ==> authors[i] == Some(steps[i].member)
  {
    if steps == [] then [] else Authors(steps[..|steps| - 1]) + [Some(steps[|steps| - 1].member)]
  }

  function ThreadMisses(steps: seq<Resolution>): nat {
    if steps == [] then 0 else ThreadMisses(steps[..|steps| - 1]) + (if steps[|steps| - 1].threadHit then 0 else 1)
  }

  function MemberMisses(steps: seq<Resolution>): nat {
    if steps == [] then 0 else MemberMisses(steps[..|steps| - 1]) + (if steps[|steps| - 1].memberHit then 0 else 1)
  }

  /** The thread cache grows by one per record on a thread hit and by two on a miss. */
  lemma {:induction false} ThreadCacheGrowth(steps: seq<Resolution>)
    ensures |AllThreadAppends(steps)| == |steps| + ThreadMisses(steps)
  {
    if steps != [] {
      ThreadCacheGrowth(steps[..|steps| - 1]);
    }
  }

  /** The member cache grows by one exactly per member miss. */
  lemma {:induction false} MemberCacheGrowth(steps: seq<Resolution>)
    ensures |AllMemberAppends(steps)| == MemberMisses(steps)
  {
    if steps != [] {
      MemberCacheGrowth(steps[..|steps| - 1]);
    }
  }

  /** Every copy put into the result also went into the thread cache. */
  lemma {:induction false} CopiesAreCached(steps: seq<Resolution>, i: nat)
    requires i < |steps|
    ensures steps[i].copy in AllThreadAppends(steps)
  {
    var last := |steps| - 1;
    if i < last {
      CopiesAreCached(steps[..last], i);
    }
  }

  /** Records that all hit both caches issue no request. */
  lemma {:induction false} HitsIssueNothing(server: Server, steps: seq<Resolution>)
    requires forall i :: 0 <= i < |steps| ==> steps[i].threadHit && steps[i].memberHit
    ensures AllCalls(server, steps) == []
  {
    if steps != [] {
      HitsIssueNothing(server, steps[..|steps| - 1]);
    }
  }

  /**
   * A thread miss fetches the thread's author through `refresh`, even when
   * that author is already cached and the record's own author lookup hits.
   */
  lemma ThreadMissFetchesAuthor(server: Server, res: Resolution)
    requires !res.threadHit && RefreshAuthor(server, res.threadId).Ok?
    ensures StepCalls(server, res)[1] == ProfileCall(RefreshAuthor(server, res.threadId).value)
    ensures res.memberHit ==> |StepCalls(server, res)| == 2
  {
  }

  /** The requests `refresh` issues for a sequence of threads fetched under the given ids, in order. */
  function RefreshCalls(server: Server, ids: seq<Option<Value>>): seq<Call> {
    if ids == [] then [] else RefreshCalls(server, ids[..|ids| - 1]) + ThreadRefreshCalls(server, ids[|ids| - 1])
  }

  /** The requests of one more refresh come after those of the earlier ones. */
  lemma RefreshCallsAppend(server: Server, ids: seq<Option<Value>>, id: Option<Value>)
    ensures RefreshCalls(server, ids + [id]) == RefreshCalls(server, ids) + ThreadRefreshCalls(server, id)
  {
    assert (ids + [id])[..|ids|] == ids;
  }

  /** A storage refresh issues one thread request per element, each followed by at most one profile request. */
  lemma {:induction false} RefreshCallsCount(server: Server, ids: seq<Option<Value>>)
    ensures |ids| <= |RefreshCalls(server, ids)| <= 2 * |ids|
  {
    if ids != [] {
      RefreshCallsCount(server, ids[..|ids| - 1]);
    }
  }

  /** The batch totals after one more record: its own contributions appended to the earlier ones. */
  lemma AppendStep(server: Server, steps: seq<Resolution>, res: Resolution)
    ensures AllThreadAppends(steps + [res]) == AllThreadAppends(steps) + ThreadAppends(res)
    ensures AllMemberAppends(steps + [res]) == AllMemberAppends(steps) + MemberAppends(res)
    ensures AllCalls(server, steps + [res]) == AllCalls(server, steps) + StepCalls(server, res)
    ensures Copies(steps + [res]) == Copies(steps) + [res.copy]
  {
    assert (steps + [res])[..|steps|] == steps;
  }

  /** The requests the thread lookup of one record issues, given the ids the thread cache holds. */
  function ThreadLookupCalls(server: Server, threadId: Option<Value>, threadIds: seq<Option<Value>>): seq<Call> {
    if IndexOf(threadIds, threadId) != -1 then [] else ThreadRefreshCalls(server, threadId)
  }

  /** The thread lookup of one record returns normally: a hit, or a miss whose refresh succeeds. */
  predicate ThreadResolves(server: Server, threadId: Option<Value>, threadIds: seq<Option<Value>>) {
    IndexOf(threadIds, threadId) != -1 || RefreshSucceeds(server, threadId)
  }

  /** The requests the author lookup of one record issues, given the ids the member cache holds. */
  function AuthorCalls(element: Value, memberIds: seq<Option<Value>>): seq<Call> {
    match AuthorUid(element)
    case Err(_) => []
    case Ok(uid) => if IndexOf(memberIds, uid) != -1 then [] else [ProfileCall(uid)]
  }

  /** The author lookup of one record returns normally: a hit, or a miss whose profile can be read. */
  predicate AuthorResolves(server: Server, element: Value, memberIds: seq<Option<Value>>) {
    match AuthorUid(element)
    case Err(_) => false
    case Ok(uid) => IndexOf(memberIds, uid) != -1 || ProfileOutcome(server, uid).Ok?
  }

  /**
   * Every request one record of a batch issues, whether it is appended or
   * throws, given the ids the caches hold when it is reached: the thread
   * lookup's, then, unless that threw, the author lookup's. A `null` record
   * throws before any request.
   */
  function RecordCalls(server: Server, element: Value, threadIds: seq<Option<Value>>, memberIds: seq<Option<Value>>): seq<Call> {
    if element == Null then []
    else
      var threadId := Field(element, "threadId");
      ThreadLookupCalls(server, threadId, threadIds) +
      (if ThreadResolves(server, threadId, threadIds) then AuthorCalls(element, memberIds) else [])
  }

  /** One record of a batch is reconciled without throwing. */
  predicate RecordSucceeds(server: Server, element: Value, threadIds: seq<Option<Value>>, memberIds: seq<Option<Value>>) {
    element != Null && ThreadResolves(server, Field(element, "threadId"), threadIds) && AuthorResolves(server, element, memberIds)
  }

  /** The threads a record that throws has pushed: the thread refreshed on a miss, when only the author lookup threw. */
  function FailedThreadPushes(server: Server, element: Value, threadIds: seq<Option<Value>>): nat {
    if element != Null && IndexOf(threadIds, Field(element, "threadId")) == -1 && RefreshSucceeds(server, Field(element, "threadId"))
    then 1 else 0
  }

  /**
   * What a record that throws leaves in the thread cache past the threads
   * `before` it found there: when it pushed a thread, that thread is none of
   * them and holds what a refresh under the record's `threadId` leaves.
   */
  ghost predicate FailedPush(server: Server, element: Value, threadIds: seq<Option<Value>>,
                             before: seq<Thread>, after: seq<Thread>)
    reads if |before| < |after| then {after[|before|]} else {}
    reads if |before| < |after| && after[|before|].creator.Some? then {after[|before|].creator.value} else {}
  {
    FailedThreadPushes(server, element, threadIds) == 1 ==>
      && |before| < |after|
      && after[|before|] !in before
      && Refreshed(after[|before|], server, Field(element, "threadId"))
  }

  /** A record whose thread and author are both cached issues no request. */
  lemma CachedRecordIssuesNothing(server: Server, element: Value, threadIds: seq<Option<Value>>, memberIds: seq<Option<Value>>)
    requires element != Null && IndexOf(threadIds, Field(element, "threadId")) != -1
    requires AuthorUid(element).Ok? && IndexOf(memberIds, AuthorUid(element).value) != -1
    ensures RecordCalls(server, element, threadIds, memberIds) == []
    ensures RecordSucceeds(server, element, threadIds, memberIds)
  {
  }

  /** One record issues at most three requests: a thread, its author's profile, the record author's profile. */
  lemma RecordCallsBound(server: Server, element: Value, threadIds: seq<Option<Value>>, memberIds: seq<Option<Value>>)
    ensures |RecordCalls(server, element, threadIds, memberIds)| <= 3
    ensures element != Null && IndexOf(threadIds, Field(element, "threadId")) == -1 ==>
      RecordCalls(server, element, threadIds, memberIds)[0] == ThreadCall(Field(element, "threadId"))
  {
  }

  /** The caches as one record of a batch finds them: their entries and those entries' ids. */
  datatype Snapshot = Snapshot(
    threads: seq<Thread>, threadIds: seq<Option<Value>>,
    members: seq<Member>, memberIds: seq<Option<Value>>)

  /** A member fetched for a record's author holds the profile the server gives for the record's `author.uid` (line 218). */
  ghost predicate MemberFetched(server: Server, res: Resolution)
    reads res.member
  {
    ProfileOutcome(server, res.authorUid).Ok? && res.member.Data() == ProfileOutcome(server, res.authorUid).value
  }

  /** The objects a resolution's content lives in: its thread, member and copy, and the refreshed thread's creator. */
  ghost function StepObjects(res: Resolution): set<object>
    reads res.thread
  {
    {res.thread, res.member, res.copy} + (if res.thread.creator.Some? then {res.thread.creator.value} else {})
  }

  /**
   * What a record's resolution holds: a thread that missed as the refresh
   * at line 209 left it, a member that missed with the profile fetched at
   * line 218, and the copy hydrated from the thread instance (line 227).
   */
  ghost predicate Filled(server: Server, res: Resolution)
    reads StepObjects(res)
  {
    && (!res.threadHit ==> Refreshed(res.thread, server, res.threadId))
    && (!res.memberHit ==> MemberFetched(server, res))
    && res.copy.Data() == CopyOf(res.thread.Data())
  }

  /** The objects of all resolutions in `steps`. */
  ghost function StepsObjects(steps: seq<Resolution>): set<object>
    reads set i | 0 <= i < |steps| :: steps[i].thread
  {
    (set i | 0 <= i < |steps| :: steps[i].thread) + (set i | 0 <= i < |steps| :: steps[i].member) +
    (set i | 0 <= i < |steps| :: steps[i].copy) +
    (set i | 0 <= i < |steps| && steps[i].thread.creator.Some? :: steps[i].thread.creator.value)
  }

  /** The objects of resolutions are threads and members, never a collection or a client. */
  lemma StepsObjectsApart(steps: seq<Resolution>, threads: ThreadStorage, members: MemberStorage, client: Client)
    ensures threads !in StepsObjects(steps) && members !in StepsObjects(steps) && client !in StepsObjects(steps)
  {
  }

  /** Every resolution in `steps` holds what its record fetched. */
  ghost predicate AllFilled(server: Server, steps: seq<Resolution>)
    reads StepsObjects(steps)
  {
    forall i :: 0 <= i < |steps| ==> Filled(server, steps[i])
  }

  /** What the resolutions hold survives a change to other objects. */
  twostate lemma AllFilledFrame(new server: Server, steps: seq<Resolution>)
    requires old(AllFilled(server, steps))
    requires unchanged(old(StepsObjects(steps)))
    ensures AllFilled(server, steps)
  {
  }

  /** Appending a resolution that holds what its record fetched. */
  lemma AllFilledStep(server: Server, steps: seq<Resolution>, res: Resolution)
    requires AllFilled(server, steps) && Filled(server, res)
    ensures AllFilled(server, steps + [res])
  {
    var steps' := steps + [res];
    forall i | 0 <= i < |steps'| ensures Filled(server, steps'[i]) {
      if i < |steps| {
        assert steps'[i] == steps[i];
      }
    }
  }

  /**
   * Record `res` was reconciled against the caches `seen`, as lines 206-222
   * do: the thread is the first cached one whose id is `===` the record's
   * thread id, the member likewise for the author uid, and each is a hit
   * exactly when such an entry exists. A thread or member that missed, and
   * the copy, are none of the entries the caches held.
   */
  ghost predicate Reconciled(res: Resolution, seen: Snapshot) {
    var threadIndex := IndexOf(seen.threadIds, res.threadId);
    var memberIndex := IndexOf(seen.memberIds, res.authorUid);
    && |seen.threadIds| == |seen.threads| && |seen.memberIds| == |seen.members|
    && (res.threadHit <==> threadIndex != -1)
    && (res.threadHit ==> res.thread == seen.threads[threadIndex])
    && (res.memberHit <==> memberIndex != -1)
    && (res.memberHit ==> res.member == seen.members[memberIndex])
    && (!res.threadHit ==> res.thread !in seen.threads)
    && (!res.memberHit ==> res.member !in seen.members)
    && res.copy !in seen.threads
  }

  /** For a record that was appended, the requests of its resolution are the ones `RecordCalls` names. */
  lemma SucceedingRecordCalls(server: Server, element: Value, res: Resolution, seen: Snapshot)
    requires LookedUp(element, res) && Reconciled(res, seen)
    requires RecordSucceeds(server, element, seen.threadIds, seen.memberIds)
    ensures StepCalls(server, res) == RecordCalls(server, element, seen.threadIds, seen.memberIds)
  {
  }

  /** Record `element`, which found the caches `seen`, was looked up by its own ids, reconciled against them, and did not throw. */
  ghost predicate Fits(server: Server, element: Value, res: Resolution, seen: Snapshot) {
    LookedUp(element, res) && Reconciled(res, seen) && RecordSucceeds(server, element, seen.threadIds, seen.memberIds)
  }

  /** Every appended record fits the snapshot it found. */
  ghost predicate AllFit(server: Server, records: seq<Value>, steps: seq<Resolution>, seen: seq<Snapshot>) {
    |steps| <= |seen| && |steps| <= |records| && FitsBelow(server, records, steps, seen, |steps|)
  }

  /** The first `n` appended records each fit the snapshot they found. */
  ghost predicate FitsBelow(server: Server, records: seq<Value>, steps: seq<Resolution>, seen: seq<Snapshot>, n: nat)
    requires n <= |steps| && n <= |seen| && n <= |records|
  {
    n == 0 || (FitsBelow(server, records, steps, seen, n - 1) && Fits(server, records[n - 1], steps[n - 1], seen[n - 1]))
  }

  /** `FitsBelow` says each of the first `n` records fits. */
  lemma {:induction false} FitsBelowElements(server: Server, records: seq<Value>, steps: seq<Resolution>,
                                             seen: seq<Snapshot>, n: nat)
    requires n <= |steps| && n <= |seen| && n <= |records|
    ensures FitsBelow(server, records, steps, seen, n) <==>
      forall i :: 0 <= i < n ==> Fits(server, records[i], steps[i], seen[i])
  {
    if n > 0 {
      FitsBelowElements(server, records, steps, seen, n - 1);
      if FitsBelow(server, records, steps, seen, n) {
        forall i | 0 <= i < n ensures Fits(server, records[i], steps[i], seen[i]) {
        }
      }
    }
  }

  /** `AllFit` says each appended record fits the snapshot it found. */
  lemma AllFitElements(server: Server, records: seq<Value>, steps: seq<Resolution>, seen: seq<Snapshot>)
    ensures AllFit(server, records, steps, seen) <==>
      && |steps| <= |seen| && |steps| <= |records|
      && forall i :: 0 <= i < |steps| ==> Fits(server, records[i], steps[i], seen[i])
  {
    if |steps| <= |seen| && |steps| <= |records| {
      FitsBelowElements(server, records, steps, seen, |steps|);
    }
  }

  /**
   * In a reconciliation, record `i`'s thread lookup hit exactly when its
   * `threadId` was `===` an id of the thread cache as the record found it,
   * and its author lookup exactly when its `author.uid` was `===` an id of
   * the member cache as it found it.
   */
  lemma HitsAreCacheHits(server: Server, records: seq<Value>, steps: seq<Resolution>, seen: seq<Snapshot>, i: nat)
    requires AllFit(server, records, steps, seen) && i < |steps|
    ensures records[i] != Null && AuthorUid(records[i]).Ok?
    ensures steps[i].threadHit <==> IndexOf(seen[i].threadIds, Field(records[i], "threadId")) != -1
    ensures steps[i].memberHit <==> IndexOf(seen[i].memberIds, AuthorUid(records[i]).value) != -1
  {
    AllFitElements(server, records, steps, seen);
  }

  /** Both of a record's lookups find an entry in the caches `seen` it finds. */
  predicate CachedRecord(element: Value, seen: Snapshot) {
    && element != Null
    && IndexOf(seen.threadIds, Field(element, "threadId")) != -1
    && AuthorUid(element).Ok?
    && IndexOf(seen.memberIds, AuthorUid(element).value) != -1
  }

  /** A batch whose every record found its thread and its author cached issues no request. */
  lemma AllHitsNoRequests(server: Server, records: seq<Value>, steps: seq<Resolution>, seen: seq<Snapshot>)
    requires AllFit(server, records, steps, seen)
    requires forall i :: 0 <= i < |steps| ==> CachedRecord(records[i], seen[i])
    ensures AllCalls(server, steps) == []
  {
    forall i | 0 <= i < |steps| ensures steps[i].threadHit && steps[i].memberHit {
      HitsAreCacheHits(server, records, steps, seen, i);
    }
    HitsIssueNothing(server, steps);
  }

  /**
   * Record `i` found the caches `seen[i]`: the caches as they started
   * followed by what the records before it appended, with the ids those
   * entries still hold (a prefix of `threadIds`/`memberIds`, the caches'
   * ids now).
   */
  ghost predicate Snapshots(steps: seq<Resolution>, seen: seq<Snapshot>, threads0: seq<Thread>, members0: seq<Member>,
                            threadIds: seq<Option<Value>>, memberIds: seq<Option<Value>>)
  {
    |seen| <= |steps| + 1 &&
    forall i :: 0 <= i < |seen| ==>
      && seen[i].threads == threads0 + AllThreadAppends(steps[..i])
      && seen[i].members == members0 + AllMemberAppends(steps[..i])
      && seen[i].threadIds <= threadIds && seen[i].memberIds <= memberIds
  }

  /**
   * The batch constructor's progress through `records`: each record found
   * the caches as the records before it left them, and each appended record
   * fits what it found. `seen` may hold one snapshot more than `steps`: the
   * one of a record that threw.
   */
  ghost predicate Reconciliation(server: Server, records: seq<Value>, steps: seq<Resolution>, seen: seq<Snapshot>,
                                 threads0: seq<Thread>, members0: seq<Member>,
                                 threadIds: seq<Option<Value>>, memberIds: seq<Option<Value>>)
  {
    && |steps| <= |seen| <= |records|
    && Snapshots(steps, seen, threads0, members0, threadIds, memberIds)
    && AllFit(server, records, steps, seen)
  }

  /** Reaching the next record: its snapshot joins `seen`, and the caches' ids may have grown since. */
  lemma {:induction false} SnapshotsReach(steps: seq<Resolution>, seen: seq<Snapshot>,
                                          threads0: seq<Thread>, members0: seq<Member>, next: Snapshot,
                                          threadIds: seq<Option<Value>>, memberIds: seq<Option<Value>>)
    requires Snapshots(steps, seen, threads0, members0, next.threadIds, next.memberIds)
    requires |seen| == |steps|
    requires next.threads == threads0 + AllThreadAppends(steps) && next.members == members0 + AllMemberAppends(steps)
    requires next.threadIds <= threadIds && next.memberIds <= memberIds
    ensures Snapshots(steps, seen + [next], threads0, members0, threadIds, memberIds)
  {
    var seen' := seen + [next];
    forall i | 0 <= i < |seen'|
      ensures seen'[i].threads == threads0 + AllThreadAppends(steps[..i])
      ensures seen'[i].members == members0 + AllMemberAppends(steps[..i])
      ensures seen'[i].threadIds <= threadIds && seen'[i].memberIds <= memberIds
    {
      if i == |seen| {
        assert steps[..i] == steps;
      }
    }
  }

  /** Appending a record's resolution leaves the snapshots as they were. */
  lemma {:induction false} SnapshotsStep(steps: seq<Resolution>, seen: seq<Snapshot>,
                                         threads0: seq<Thread>, members0: seq<Member>, res: Resolution,
                                         threadIds: seq<Option<Value>>, memberIds: seq<Option<Value>>)
    requires Snapshots(steps, seen, threads0, members0, threadIds, memberIds)
    requires |seen| == |steps| + 1
    ensures Snapshots(steps + [res], seen, threads0, members0, threadIds, memberIds)
  {
    var steps' := steps + [res];
    forall i | 0 <= i < |seen|
      ensures seen[i].threads == threads0 + AllThreadAppends(steps'[..i])
      ensures seen[i].members == members0 + AllMemberAppends(steps'[..i])
    {
      assert steps'[..i] == steps[..i];
    }
  }

  /** Appending a record that fits what it found. */
  lemma {:induction false} AllFitStep(server: Server, records: seq<Value>, steps: seq<Resolution>, seen: seq<Snapshot>, res: Resolution)
    requires AllFit(server, records, steps, seen)
    requires |seen| == |steps| + 1 && |steps| < |records|
    requires Fits(server, records[|steps|], res, seen[|steps|])
    ensures AllFit(server, records, steps + [res], seen)
  {
    var steps' := steps + [res];
    AllFitElements(server, records, steps, seen);
    AllFitElements(server, records, steps', seen);
    forall i | 0 <= i < |steps'|
      ensures Fits(server, records[i], steps'[i], seen[i])
    {
      if i < |steps| {
        assert steps'[i] == steps[i];
      }
    }
  }

  /** Growing `seen` keeps every appended record's fit. */
  lemma {:induction false} AllFitReach(server: Server, records: seq<Value>, steps: seq<Resolution>, seen: seq<Snapshot>, next: Snapshot)
    requires AllFit(server, records, steps, seen)
    ensures AllFit(server, records, steps, seen + [next])
  {
    var seen' := seen + [next];
    AllFitElements(server, records, steps, seen);
    AllFitElements(server, records, steps, seen');
    forall i | 0 <= i < |steps|
      ensures Fits(server, records[i], steps[i], seen'[i])
    {
      assert seen'[i] == seen[i];
    }
  }

  /** Reaching the next record, whose snapshot is the caches as the records before it left them. */
  lemma ReconciliationReach(server: Server, records: seq<Value>, steps: seq<Resolution>, seen: seq<Snapshot>,
                            threads0: seq<Thread>, members0: seq<Member>, next: Snapshot,
                            threadIds: seq<Option<Value>>, memberIds: seq<Option<Value>>)
    requires Reconciliation(server, records, steps, seen, threads0, members0, next.threadIds, next.memberIds)
    requires |seen| == |steps| < |records|
    requires next.threads == threads0 + AllThreadAppends(steps) && next.members == members0 + AllMemberAppends(steps)
    requires next.threadIds <= threadIds && next.memberIds <= memberIds
    ensures Reconciliation(server, records, steps, seen + [next], threads0, members0, threadIds, memberIds)
  {
    SnapshotsReach(steps, seen, threads0, members0, next, threadIds, memberIds);
    AllFitReach(server, records, steps, seen, next);
  }

  /** Appending the resolution of the record last reached, which fits the snapshot it found. */
  lemma ReconciliationStep(server: Server, records: seq<Value>, steps: seq<Resolution>, seen: seq<Snapshot>,
                           threads0: seq<Thread>, members0: seq<Member>, res: Resolution,
                           threadIds: seq<Option<Value>>, memberIds: seq<Option<Value>>)
    requires Reconciliation(server, records, steps, seen, threads0, members0, threadIds, memberIds)
    requires |seen| == |steps| + 1
    requires Fits(server, records[|steps|], res, seen[|steps|])
    ensures Reconciliation(server, records, steps + [res], seen, threads0, members0, threadIds, memberIds)
  {
    SnapshotsStep(steps, seen, threads0, members0, res, threadIds, memberIds);
    AllFitStep(server, records, steps, seen, res);
  }

  /**
   * One appended record, in the terms of the whole batch: the caches, the
   * requests, the copies and their creators extend by its contribution.
   */
  lemma TurnFacts(server: Server, steps: seq<Resolution>, threads0: seq<Thread>, members0: seq<Member>,
                  trace0: seq<Call>, before: Snapshot, res: Resolution)
    requires before.threads == threads0 + AllThreadAppends(steps) && before.members == members0 + AllMemberAppends(steps)
    ensures before.threads + ThreadAppends(res) == threads0 + AllThreadAppends(steps + [res])
    ensures before.members + MemberAppends(res) == members0 + AllMemberAppends(steps + [res])
    ensures trace0 + AllCalls(server, steps) + StepCalls(server, res) == trace0 + AllCalls(server, steps + [res])
    ensures Copies(steps) + [res.copy] == Copies(steps + [res])
    ensures Authors(steps) + [Some(res.member)] == Authors(steps + [res])
  {
    AppendStep(server, steps, res);
    ConcatAssoc(threads0, AllThreadAppends(steps), ThreadAppends(res));
    ConcatAssoc(members0, AllMemberAppends(steps), MemberAppends(res));
    ConcatAssoc(trace0, AllCalls(server, steps), StepCalls(server, res));
    assert (steps + [res])[..|steps|] == steps;
  }

  /** An ordered collection of threads (the storage base class `IAminoStorage`, which is not part of this model, specialised to threads). */
  class ThreadStorage {
    const client: Client
    var items: seq<Thread>

    /** Every element talks to the server through this collection's client. */
    ghost predicate Valid()
      reads this
    {
      forall i :: 0 <= i < |items| ==> items[i].client == client
    }

    constructor Empty(client: Client)
      ensures this.client == client && items == []
    {
      this.client := client;
      items := [];
    }

    /** Appends a thread and returns the position it now holds. */
    method Push(t: Thread) returns (index: nat)
      modifies this
      ensures items == old(items) + [t]
      ensures index == |old(items)| && items[index] == t
    {
      index := |items|;
      items := items + [t];
    }

    /**
     * Lines 206-213 for one record: the cached thread whose id is `threadId`,
     * or, on a miss, a new thread refreshed from the server and appended to
     * the thread cache. Returns the thread and whether it was a hit.
     */
    method ResolveThread(community: Community, threadId: Option<Value>) returns (r: Result<(Thread, bool)>)
      modifies community.cache.threads, client
      ensures var index := IndexOf(old(ThreadIds(community.cache.threads.items)), threadId);
        && (index != -1 ==>
              r == Ok((old(community.cache.threads.items)[index], true))
              && community.cache.threads.items == old(community.cache.threads.items)
              && client.trace == old(client.trace))
        && (index == -1 ==>
              && client.trace == old(client.trace) + ThreadRefreshCalls(client.server, threadId)
              && (r.Ok? <==> RefreshSucceeds(client.server, threadId))
              && (r.Err? ==> r.error == TypeError && community.cache.threads.items == old(community.cache.threads.items))
              && (r.Ok? ==>
                    && !r.value.1 && fresh(r.value.0)
                    && r.value.0.client == client && r.value.0.community == community
                    && Refreshed(r.value.0, client.server, threadId) && fresh(r.value.0.creator.value)
                    && community.cache.threads.items == old(community.cache.threads.items) + [r.value.0]))
      ensures client.trace == old(client.trace) + ThreadLookupCalls(client.server, threadId, old(ThreadIds(community.cache.threads.items)))
      ensures r.Ok? <==> ThreadResolves(client.server, threadId, old(ThreadIds(community.cache.threads.items)))
      ensures forall i :: 0 <= i < |community.cache.members.items| ==>
        community.cache.members.items[i].id == old(community.cache.members.items[i].id)
    {
      var cached := community.cache.threads;
      var index := FindThread(cached.items, threadId);
      if index != -1 {
        return Ok((cached.items[index], true));
      }
      var thread := new Thread(client, community, threadId);
      var refreshed := thread.Refresh();
      if refreshed.Err? {
        return Err(refreshed.error);
      }
      var _ := cached.Push(thread);
      r := Ok((thread, false));
    }

    /**
     * Lines 215-222 for one record: the cached member whose id is `uid`, or,
     * on a miss, a new member refreshed from the server and appended to the
     * member cache. Returns the member and whether it was a hit. When every
     * profile the server hands out carries the uid it was fetched under, a
     * cache without two identical ids keeps that shape.
     */
    method ResolveMember(community: Community, uid: Option<Value>) returns (r: Result<(Member, bool)>)
      modifies community.cache.members, client
      ensures var index := IndexOf(old(MemberIds(community.cache.members.items)), uid);
        && (index != -1 ==>
              r == Ok((old(community.cache.members.items)[index], true))
              && community.cache.members.items == old(community.cache.members.items)
              && client.trace == old(client.trace))
        && (index == -1 ==>
              && client.trace == old(client.trace) + [ProfileCall(uid)]
              && (r.Ok? <==> ProfileOutcome(client.server, uid).Ok?)
              && (r.Err? ==> r.error == TypeError && community.cache.members.items == old(community.cache.members.items))
              && (r.Ok? ==>
                    && !r.value.1 && fresh(r.value.0)
                    && r.value.0.client == client && r.value.0.community == Context(community)
                    && r.value.0.Data() == ProfileOutcome(client.server, uid).value
                    && community.cache.members.items == old(community.cache.members.items) + [r.value.0]))
      ensures ConsistentProfiles(client.server) && Unique(old(MemberIds(community.cache.members.items))) ==>
        Unique(MemberIds(community.cache.members.items))
    {
      var cached := community.cache.members;
      ghost var ids := MemberIds(cached.items);
      var index := FindMember(cached.items, uid);
      if index != -1 {
        return Ok((cached.items[index], true));
      }
      var member := new Member(client, Context(community), uid);
      var refreshed := member.Refresh();
      if refreshed.Err? {
        return Err(refreshed.error);
      }
      ghost var before := cached.items;
      var _ := cached.Push(member);
      assert MemberIds(cached.items) == ids + [member.id] by {
        assert cached.items[..|before|] == before;
      }
      if ConsistentProfiles(client.server) && Unique(ids) {
        AppendMissingKeepsUnique(ids, uid);
      }
      r := Ok((member, false));
    }

    /**
     * Lines 224-230 for one record: a new thread hydrated from the resolved
     * thread instance with the resolved member as creator, appended to this
     * collection and, through the index `push` returns, to the thread cache.
     */
    method AppendCopy(community: Community, threadId: Option<Value>, thread: Thread, member: Member) returns (copy: Thread)
      requires this != community.cache.threads
      modifies this, community.cache.threads, client
      ensures client.trace == old(client.trace)
      ensures fresh(copy) && copy.client == client && copy.community == community
      ensures copy.creator == Some(member) && copy.Data() == CopyOf(thread.Data())
      ensures items == old(items) + [copy]
      ensures community.cache.threads.items == old(community.cache.threads.items) + [copy]
      ensures forall i :: 0 <= i < |community.cache.members.items| ==>
        community.cache.members.items[i].id == old(community.cache.members.items[i].id)
      ensures old(Valid()) ==> Valid()
      ensures old(Distinct(items)) ==> Distinct(items)
    {
      copy := new Thread(client, community, threadId);
      var hydrated := copy.SetObject(Some(InstanceView(thread.Data())), Some(member));
      DistinctAppend(items, copy);
      var index := Push(copy);
      var _ := community.cache.threads.Push(items[index]);
    }

    /**
     * The second half of the constructor's `forEach` for one record whose
     * thread is already resolved: resolve the author (lines 215-222), then
     * append the copy (lines 224-230).
     */
    method Attach(community: Community, element: Value, threadId: Option<Value>, thread: Thread, threadHit: bool)
      returns (r: Result<Resolution>)
      requires this != community.cache.threads
      modifies this, community.cache.threads, community.cache.members, client
      ensures unchanged(thread) && (thread.creator.Some? ==> unchanged(thread.creator.value))
      ensures client.trace == old(client.trace) + AuthorCalls(element, old(MemberIds(community.cache.members.items)))
      ensures r.Ok? <==> AuthorResolves(client.server, element, old(MemberIds(community.cache.members.items)))
      ensures r.Err? ==>
        && r.error == TypeError && items == old(items)
        && community.cache.threads.items == old(community.cache.threads.items)
        && community.cache.members.items == old(community.cache.members.items)
      ensures r.Ok? ==>
        var res := r.value;
        var memberIndex := IndexOf(old(MemberIds(community.cache.members.items)), res.authorUid);
        && res.threadId == threadId && res.thread == thread && res.threadHit == threadHit
        && res.authorUid == AuthorUid(element).value
        && (res.memberHit <==> memberIndex != -1)
        && (res.memberHit ==> res.member == old(community.cache.members.items)[memberIndex])
        && (!res.memberHit ==> fresh(res.member) && MemberFetched(client.server, res))
        && fresh(res.copy) && res.copy.client == client && res.copy.creator == Some(res.member)
        && res.copy.Data() == CopyOf(thread.Data())
        && items == old(items) + [res.copy]
        && community.cache.threads.items == old(community.cache.threads.items) + [res.copy]
        && community.cache.members.items == old(community.cache.members.items) + MemberAppends(res)
      ensures ConsistentProfiles(client.server) && Unique(old(MemberIds(community.cache.members.items))) ==>
        Unique(MemberIds(community.cache.members.items))
      ensures old(Valid()) ==> Valid()
      ensures old(Distinct(items)) ==> Distinct(items)
    {
      var uid := AuthorUid(element);
      if uid.Err? {
        return Err(uid.error);
      }
      var member := ResolveMember(community, uid.value);
      if member.Err? {
        return Err(member.error);
      }
      assert unchanged(thread) && (thread.creator.Some? ==> unchanged(thread.creator.value));
      label resolved:
      var copy := AppendCopy(community, threadId, thread, member.value.0);
      MemberIdsFrame@resolved(community.cache.members.items);
      r := Ok(Resolution(threadId, thread, threadHit, uid.value, member.value.0, member.value.1, copy));
    }

    /**
     * The body of the constructor's `forEach` for one record: resolve the
     * thread, then the author, then append the copy. It issues the requests
     * `RecordCalls` names, whether it throws or not. A record that throws
     * leaves the collection and the member cache as they were, and the
     * thread cache with the thread a miss had refreshed, if any.
     */
    method Absorb(community: Community, element: Value) returns (r: Result<Resolution>)
      requires this != community.cache.threads
      modifies this, community.cache.threads, community.cache.members, client
      ensures client.trace == old(client.trace) +
        RecordCalls(client.server, element, old(ThreadIds(community.cache.threads.items)), old(MemberIds(community.cache.members.items)))
      ensures r.Ok? <==>
        RecordSucceeds(client.server, element, old(ThreadIds(community.cache.threads.items)), old(MemberIds(community.cache.members.items)))
      ensures r.Err? ==>
        && r.error == TypeError && items == old(items)
        && community.cache.members.items == old(community.cache.members.items)
        && old(community.cache.threads.items) <= community.cache.threads.items
        && |community.cache.threads.items| == |old(community.cache.threads.items)| +
             FailedThreadPushes(client.server, element, old(ThreadIds(community.cache.threads.items)))
        && (FailedThreadPushes(client.server, element, old(ThreadIds(community.cache.threads.items))) == 1 ==>
              fresh(community.cache.threads.items[|old(community.cache.threads.items)|]))
        && FailedPush(client.server, element, old(ThreadIds(community.cache.threads.items)),
                      old(community.cache.threads.items), community.cache.threads.items)
      ensures r.Ok? ==>
        var res := r.value;
        var threadIndex := IndexOf(old(ThreadIds(community.cache.threads.items)), res.threadId);
        var memberIndex := IndexOf(old(MemberIds(community.cache.members.items)), res.authorUid);
        && LookedUp(element, res)
        && (res.threadHit <==> threadIndex != -1)
        && (res.threadHit ==> res.thread == old(community.cache.threads.items)[threadIndex])
        && (!res.threadHit ==> fresh(res.thread) && Refreshed(res.thread, client.server, res.threadId))
        && (res.memberHit <==> memberIndex != -1)
        && (res.memberHit ==> res.member == old(community.cache.members.items)[memberIndex])
        && (!res.memberHit ==> fresh(res.member) && MemberFetched(client.server, res))
        && fresh(res.copy) && res.copy.client == client && res.copy.creator == Some(res.member)
        && res.copy.Data() == CopyOf(res.thread.Data())
        && items == old(items) + [res.copy]
        && community.cache.threads.items == old(community.cache.threads.items) + ThreadAppends(res)
        && community.cache.members.items == old(community.cache.members.items) + MemberAppends(res)
      ensures ConsistentProfiles(client.server) && Unique(old(MemberIds(community.cache.members.items))) ==>
        Unique(MemberIds(community.cache.members.items))
      ensures old(Valid()) ==> Valid()
      ensures old(Distinct(items)) ==> Distinct(items)
    {
      if element == Null {
        return Err(TypeError);
      }
      ghost var threads0, members0, trace0 := community.cache.threads.items, community.cache.members.items, client.trace;
      ghost var threadIds0, memberIds0 := ThreadIds(threads0), MemberIds(members0);
      var threadId := Field(element, "threadId");
      label start:
      var thread := ResolveThread(community, threadId);
      MemberIdsFrame@start(members0);
      ghost var threadCalls := ThreadLookupCalls(client.server, threadId, threadIds0);
      if thread.Err? {
        assert RecordCalls(client.server, element, threadIds0, memberIds0) == threadCalls + [];
        return Err(thread.error);
      }
      ghost var threadNew: seq<Thread> := if thread.value.1 then [] else [thread.value.0];
      assert community.cache.threads.items == threads0 + threadNew;
      r := Attach(community, element, threadId, thread.value.0, thread.value.1);
      ConcatAssoc(trace0, threadCalls, AuthorCalls(element, memberIds0));
      if r.Ok? {
        var res := r.value;
        ConcatAssoc(threads0, threadNew, [res.copy]);
        assert ThreadAppends(res) == threadNew + [res.copy];
      }
    }

    /**
     * One turn of `build`'s loop: absorbs `element` into this collection and
     * returns, beside the resolution, the caches as the record found them.
     */
    method Advance(community: Community, element: Value, ghost keep: set<object>)
      returns (r: Result<Resolution>, ghost before: Snapshot)
      requires this != community.cache.threads
      requires this !in keep && community.cache.threads !in keep && community.cache.members !in keep && client !in keep
      modifies this, community.cache.threads, community.cache.members, client
      ensures before.threads == old(community.cache.threads.items) && before.members == old(community.cache.members.items)
      ensures before.threadIds == old(ThreadIds(community.cache.threads.items))
      ensures before.memberIds == old(MemberIds(community.cache.members.items))
      ensures before.threadIds <= ThreadIds(community.cache.threads.items)
      ensures before.memberIds <= MemberIds(community.cache.members.items)
      ensures r.Err? ==>
        && r.error == TypeError
        && !RecordSucceeds(client.server, element, before.threadIds, before.memberIds)
        && client.trace == old(client.trace) + RecordCalls(client.server, element, before.threadIds, before.memberIds)
        && items == old(items) && community.cache.members.items == before.members
        && before.threads <= community.cache.threads.items
        && |community.cache.threads.items| == |before.threads| + FailedThreadPushes(client.server, element, before.threadIds)
        && FailedPush(client.server, element, before.threadIds, before.threads, community.cache.threads.items)
      ensures r.Ok? ==>
        var res := r.value;
        && Fits(client.server, element, res, before) && Filled(client.server, res)
        && items == old(items) + [res.copy]
        && community.cache.threads.items == before.threads + ThreadAppends(res)
        && community.cache.members.items == before.members + MemberAppends(res)
        && client.trace == old(client.trace) + StepCalls(client.server, res)
        && Creators(items) == old(Creators(items)) + [Some(res.member)]
      ensures old(Valid()) ==> Valid()
      ensures old(Distinct(items)) ==> Distinct(items)
      ensures ConsistentProfiles(client.server) && Unique(old(MemberIds(community.cache.members.items))) ==>
        Unique(MemberIds(community.cache.members.items))
      ensures unchanged(keep)
    {
      ghost var copies := items;
      before := Snapshot(community.cache.threads.items, ThreadIds(community.cache.threads.items),
                         community.cache.members.items, MemberIds(community.cache.members.items));
      label reached:
      r := Absorb(community, element);
      CreatorsFrame@reached(copies);
      ThreadIdsGrow@reached(before.threads, community.cache.threads.items);
      MemberIdsGrow@reached(before.members, community.cache.members.items);
      if r.Ok? {
        var res := r.value;
        SucceedingRecordCalls(client.server, element, res, before);
        assert Creators(items) == Creators(copies) + [res.copy.creator] by {
          assert items[..|copies|] == copies;
        }
      }
    }

    /**
     * The state of the constructor's loop after the records `steps` resolved,
     * which found the caches `seen`: this collection holds their copies, with
     * their members as creators; the caches grew by what they appended; the
     * trace by what they requested; each record fits what it found.
     */
    ghost predicate Progress(community: Community, records: seq<Value>, steps: seq<Resolution>, seen: seq<Snapshot>,
                             threads0: seq<Thread>, members0: seq<Member>, trace0: seq<Call>, ids0: seq<Option<Value>>)
      reads this, items, community.cache.threads, community.cache.members, client
      reads community.cache.threads.items, community.cache.members.items
    {
      && this != community.cache.threads
      && |steps| == |seen| <= |records|
      && items == Copies(steps) && Creators(items) == Authors(steps)
      && community.cache.threads.items == threads0 + AllThreadAppends(steps)
      && community.cache.members.items == members0 + AllMemberAppends(steps)
      && client.trace == trace0 + AllCalls(client.server, steps)
      && Reconciliation(client.server, records, steps, seen, threads0, members0,
                        ThreadIds(community.cache.threads.items), MemberIds(community.cache.members.items))
      && Valid() && Distinct(items)
      && (ConsistentProfiles(client.server) && Unique(ids0) ==> Unique(MemberIds(community.cache.members.items)))
    }

    /**
     * The state in which the constructor's loop stops when the record after
     * the records `steps` throws: `seen` holds one snapshot more, the one
     * that record found; the record did not resolve; the trace holds what it
     * requested; the member cache is as it found it, and the thread cache
     * holds beyond that only the thread its miss had refreshed, if any.
     */
    ghost predicate Stopped(community: Community, records: seq<Value>, steps: seq<Resolution>, seen: seq<Snapshot>,
                            threads0: seq<Thread>, members0: seq<Member>, trace0: seq<Call>, ids0: seq<Option<Value>>)
      reads this, items, community.cache.threads, community.cache.members, client
      reads community.cache.threads.items, community.cache.members.items
    {
      && |steps| < |records| && |seen| == |steps| + 1
      && Reconciliation(client.server, records, steps, seen, threads0, members0,
                        ThreadIds(community.cache.threads.items), MemberIds(community.cache.members.items))
      && var failed, element := seen[|steps|], records[|steps|];
      && failed.threads == threads0 + AllThreadAppends(steps)
      && failed.members == members0 + AllMemberAppends(steps)
      && |failed.threadIds| == |failed.threads| && |failed.memberIds| == |failed.members|
      && !RecordSucceeds(client.server, element, failed.threadIds, failed.memberIds)
      && client.trace == trace0 + AllCalls(client.server, steps) +
           RecordCalls(client.server, element, failed.threadIds, failed.memberIds)
      && community.cache.members.items == failed.members
      && failed.threads <= community.cache.threads.items
      && |community.cache.threads.items| == |failed.threads| + FailedThreadPushes(client.server, element, failed.threadIds)
      && (ConsistentProfiles(client.server) && Unique(ids0) ==> Unique(MemberIds(community.cache.members.items)))
    }

    /**
     * One turn of `build`'s loop in the terms of the whole batch: record
     * `records[|steps|]` is absorbed after the records `steps` resolved,
     * which found the caches `seen`.
     */
    method Turn(community: Community, ghost records: seq<Value>, ghost steps: seq<Resolution>,
                ghost seen: seq<Snapshot>, ghost threads0: seq<Thread>, ghost members0: seq<Member>, ghost trace0: seq<Call>,
                ghost ids0: seq<Option<Value>>, element: Value)
      returns (r: Result<Resolution>, ghost before: Snapshot)
      requires Progress(community, records, steps, seen, threads0, members0, trace0, ids0)
      requires |steps| < |records| && element == records[|steps|]
      requires AllFilled(client.server, steps)
      modifies this, community.cache.threads, community.cache.members, client
      ensures r.Ok? ==>
        && Progress(community, records, steps + [r.value], seen + [before], threads0, members0, trace0, ids0)
        && AllFilled(client.server, steps + [r.value])
      ensures r.Err? ==>
        r.error == TypeError && Stopped(community, records, steps, seen + [before], threads0, members0, trace0, ids0)
      ensures r.Err? ==> AllFilled(client.server, steps)
      ensures r.Err? ==> FailedPush(client.server, element, before.threadIds, before.threads, community.cache.threads.items)
    {
      StepsObjectsApart(steps, this, community.cache.members, client);
      StepsObjectsApart(steps, community.cache.threads, community.cache.members, client);
      label pre:
      r, before := Advance(community, element, StepsObjects(steps));
      AllFilledFrame@pre(client.server, steps);
      ghost var threadIds, memberIds := ThreadIds(community.cache.threads.items), MemberIds(community.cache.members.items);
      if r.Err? {
        ReconciliationReach(client.server, records, steps, seen, threads0, members0, before, threadIds, memberIds);
        ConcatAssoc(trace0, AllCalls(client.server, steps), RecordCalls(client.server, element, before.threadIds, before.memberIds));
      } else {
        ReconciliationReach(client.server, records, steps, seen, threads0, members0, before, threadIds, memberIds);
        ReconciliationStep(client.server, records, steps, seen + [before], threads0, members0, r.value, threadIds, memberIds);
        TurnFacts(client.server, steps, threads0, members0, trace0, before, r.value);
        AllFilledStep(client.server, steps, r.value);
      }
    }

    /** What the loop's state says of this collection once every record has been absorbed. */
    lemma FinishedCopies(community: Community, records: seq<Value>, steps: seq<Resolution>, seen: seq<Snapshot>,
                         threads0: seq<Thread>, members0: seq<Member>, trace0: seq<Call>, ids0: seq<Option<Value>>)
      requires Progress(community, records, steps, seen, threads0, members0, trace0, ids0)
      ensures items == Copies(steps)
      ensures forall i :: 0 <= i < |steps| ==> items[i].creator == Some(steps[i].member)
      ensures Valid() && Distinct(items)
    {
      CreatorsElements(items);
    }

    /** What the loop's state says of the caches and the trace once every record has been absorbed. */
    lemma Finished(community: Community, records: seq<Value>, steps: seq<Resolution>, seen: seq<Snapshot>,
                   threads0: seq<Thread>, members0: seq<Member>, trace0: seq<Call>, ids0: seq<Option<Value>>)
      requires Progress(community, records, steps, seen, threads0, members0, trace0, ids0)
      ensures community.cache.threads.items == threads0 + AllThreadAppends(steps)
      ensures community.cache.members.items == members0 + AllMemberAppends(steps)
      ensures client.trace == trace0 + AllCalls(client.server, steps)
      ensures threads0 <= community.cache.threads.items && members0 <= community.cache.members.items
      ensures Reconciliation(client.server, records, steps, seen, threads0, members0,
                             ThreadIds(community.cache.threads.items), MemberIds(community.cache.members.items))
      ensures |seen| == |steps|
      ensures ConsistentProfiles(client.server) && Unique(ids0) ==> Unique(MemberIds(community.cache.members.items))
    {
    }

    /** What the loop's state says once a record has thrown. */
    lemma Failed(community: Community, records: seq<Value>, steps: seq<Resolution>, seen: seq<Snapshot>,
                 threads0: seq<Thread>, members0: seq<Member>, trace0: seq<Call>, ids0: seq<Option<Value>>)
      requires Stopped(community, records, steps, seen, threads0, members0, trace0, ids0)
      ensures |steps| < |records| && |seen| == |steps| + 1
      ensures Reconciliation(client.server, records, steps, seen, threads0, members0,
                             ThreadIds(community.cache.threads.items), MemberIds(community.cache.members.items))
      ensures var failed, element := seen[|steps|], records[|steps|];
        && |failed.threadIds| == |failed.threads| && |failed.memberIds| == |failed.members|
        && !RecordSucceeds(client.server, element, failed.threadIds, failed.memberIds)
        && client.trace == trace0 + AllCalls(client.server, steps) +
             RecordCalls(client.server, element, failed.threadIds, failed.memberIds)
        && community.cache.members.items == failed.members
        && failed.threads <= community.cache.threads.items
        && |community.cache.threads.items| == |failed.threads| + FailedThreadPushes(client.server, element, failed.threadIds)
        && threads0 <= community.cache.threads.items && members0 <= community.cache.members.items
      ensures ConsistentProfiles(client.server) && Unique(ids0) ==> Unique(MemberIds(community.cache.members.items))
    {
    }

    /**
     * The constructor's `forEach` (lines 205-231) over an array of records,
     * appending to this empty collection. `steps` records how each appended
     * record was reconciled and `seen` what the caches held when each record
     * was reached. A record that throws ends the loop; what the earlier
     * records added to the caches stays, and so does what the throwing
     * record had pushed and requested.
     */
    static method Reconcile(client: Client, community: Community, records: seq<Value>)
      returns (storage: ThreadStorage, r: Outcome, ghost steps: seq<Resolution>, ghost seen: seq<Snapshot>)
      modifies community.cache.threads, community.cache.members, client
      ensures fresh(storage) && storage.client == client
      ensures r.Pass? ==> |steps| == |records| && storage.Progress(community, records, steps, seen,
        old(community.cache.threads.items), old(community.cache.members.items),
        old(client.trace), old(MemberIds(community.cache.members.items)))
      ensures r.Fail? ==> r.error == TypeError && storage.Stopped(community, records, steps, seen,
        old(community.cache.threads.items), old(community.cache.members.items),
        old(client.trace), old(MemberIds(community.cache.members.items)))
      ensures r.Fail? ==>
        && |steps| < |records| && |seen| == |steps| + 1
        && FailedPush(client.server, records[|steps|], seen[|steps|].threadIds, seen[|steps|].threads,
                      community.cache.threads.items)
      ensures AllFilled(client.server, steps)
    {
      ghost var ids0 := MemberIds(community.cache.members.items);
      ghost var threads0, members0, trace0 := community.cache.threads.items, community.cache.members.items, client.trace;
      storage := new ThreadStorage.Empty(client);
      steps, seen := [], [];
      var i := 0;
      while i < |records|
        invariant 0 <= i <= |records| && |steps| == i
        invariant fresh(storage) && storage.client == client
        invariant storage.Progress(community, records, steps, seen, threads0, members0, trace0, ids0)
        invariant AllFilled(client.server, steps)
      {
        var step, before := storage.Turn(community, records, steps, seen, threads0, members0, trace0, ids0, records[i]);
        seen := seen + [before];
        if step.Err? {
          assert seen[|steps|] == before;
          return storage, Fail(step.error), steps, seen;
        }
        steps := steps + [step.value];
        i := i + 1;
      }
      r := Pass;
    }

    /**
     * The constructor (lines 200-233): with no array an empty collection and
     * nothing else done; otherwise the records reconciled into a new
     * collection as `Reconcile` states.
     */
    static method Build(client: Client, community: Community, records: Option<seq<Value>>)
      returns (r: Result<ThreadStorage>, ghost steps: seq<Resolution>, ghost seen: seq<Snapshot>)
      modifies community.cache.threads, community.cache.members, client
      ensures r.Err? ==> r.error == TypeError && records.Some?
      ensures r.Ok? ==> fresh(r.value) && r.value.client == client
      ensures old(community.cache.threads.items) <= community.cache.threads.items
      ensures old(community.cache.members.items) <= community.cache.members.items
      ensures records.None? ==>
        && r.Ok? && r.value.items == [] && steps == [] && seen == []
        && community.cache.threads.items == old(community.cache.threads.items)
        && community.cache.members.items == old(community.cache.members.items)
        && client.trace == old(client.trace)
      ensures records.Some? ==>
        && Reconciliation(client.server, records.value, steps, seen,
                          old(community.cache.threads.items), old(community.cache.members.items),
                          ThreadIds(community.cache.threads.items), MemberIds(community.cache.members.items))
        && AllFilled(client.server, steps)
        && (r.Ok? <==> |steps| == |records.value|)
        && (r.Ok? ==> |seen| == |steps|)
        && (r.Err? ==> |seen| == |steps| + 1)
      ensures r.Ok? ==>
        && r.value.items == Copies(steps)
        && (forall i :: 0 <= i < |steps| ==> r.value.items[i].creator == Some(steps[i].member))
        && r.value.Valid() && Distinct(r.value.items)
        && community.cache.threads.items == old(community.cache.threads.items) + AllThreadAppends(steps)
        && community.cache.members.items == old(community.cache.members.items) + AllMemberAppends(steps)
        && client.trace == old(client.trace) + AllCalls(client.server, steps)
      ensures r.Err? ==>
        var failed := seen[|steps|];
        var element := records.value[|steps|];
        && |failed.threadIds| == |failed.threads| && |failed.memberIds| == |failed.members|
        && !RecordSucceeds(client.server, element, failed.threadIds, failed.memberIds)
        && client.trace == old(client.trace) + AllCalls(client.server, steps) +
             RecordCalls(client.server, element, failed.threadIds, failed.memberIds)
        && community.cache.members.items == failed.members
        && failed.threads <= community.cache.threads.items
        && |community.cache.threads.items| == |failed.threads| + FailedThreadPushes(client.server, element, failed.threadIds)
        && FailedPush(client.server, element, failed.threadIds, failed.threads, community.cache.threads.items)
      ensures ConsistentProfiles(client.server) && Unique(old(MemberIds(community.cache.members.items))) ==>
        Unique(MemberIds(community.cache.members.items))
    {
      if records.None? {
        var storage := new ThreadStorage.Empty(client);
        return Ok(storage), [], [];
      }
      var storage, outcome;
      storage, outcome, steps, seen := Reconcile(client, community, records.value);
      if outcome.Fail? {
        storage.Failed(community, records.value, steps, seen, old(community.cache.threads.items),
                       old(community.cache.members.items), old(client.trace), old(MemberIds(community.cache.members.items)));
        return Err(outcome.error), steps, seen;
      }
      storage.FinishedCopies(community, records.value, steps, seen, old(community.cache.threads.items),
                             old(community.cache.members.items), old(client.trace), old(MemberIds(community.cache.members.items)));
      storage.Finished(community, records.value, steps, seen, old(community.cache.threads.items),
                       old(community.cache.members.items), old(client.trace), old(MemberIds(community.cache.members.items)));
      r := Ok(storage);
    }

    /** `this[i].refresh()`: refreshes one element; under distinct elements no other element changes. */
    method RefreshAt(i: nat) returns (r: Result<Thread>)
      requires i < |items| && Valid()
      modifies client, items[i]
      ensures client.trace == old(client.trace) + ThreadRefreshCalls(client.server, old(items[i].id))
      ensures r.Ok? <==> RefreshSucceeds(client.server, old(items[i].id))
      ensures r.Err? ==> r.error == TypeError
      ensures r.Ok? ==> r.value == items[i] && Refreshed(items[i], client.server, old(items[i].id))
      ensures ThreadPayload(client.server, old(items[i].id)).Err? ==> items[i].Data() == old(items[i].Data())
      ensures ThreadPayload(client.server, old(items[i].id)).Ok? ==>
        items[i].Data() == HydrateThread(ThreadPayload(client.server, old(items[i].id)).value)
      ensures Distinct(items) ==> forall k :: 0 <= k < |items| && k != i ==> items[k].id == old(items[k].id)
    {
      DistinctElements(items);
      r := items[i].Refresh();
    }

    /**
     * `refresh` (lines 238-242): refresh every element once, in index order;
     * a refresh that throws ends the loop. `ids` are the ids the refreshes
     * were issued under, one per refreshed element; when no thread appears
     * twice they are the elements' ids as they stood before.
     */
    method Refresh() returns (r: Outcome, ghost ids: seq<Option<Value>>)
      requires Valid()
      modifies client, items
      ensures items == old(items)
      ensures client.trace == old(client.trace) + RefreshCalls(client.server, ids)
      ensures r.Pass? ==> |ids| == |items|
      ensures r.Fail? ==> r.error == TypeError && 0 < |ids| <= |items| && !RefreshSucceeds(client.server, ids[|ids| - 1])
      ensures forall k :: 0 <= k < |ids| && (r.Pass? || k < |ids| - 1) ==> RefreshSucceeds(client.server, ids[k])
      ensures Distinct(items) ==> forall k :: 0 <= k < |ids| ==> ids[k] == old(items[k].id)
    {
      ids := [];
      var i := 0;
      while i < |items|
        invariant 0 <= i <= |items| && |ids| == i
        invariant client.trace == old(client.trace) + RefreshCalls(client.server, ids)
        invariant forall k :: 0 <= k < i ==> RefreshSucceeds(client.server, ids[k])
        invariant Distinct(items) ==> forall k :: 0 <= k < i ==> ids[k] == old(items[k].id)
        invariant Distinct(items) ==> forall k :: i <= k < |items| ==> items[k].id == old(items[k].id)
      {
        ghost var id := items[i].id;
        RefreshCallsAppend(client.server, ids, id);
        ConcatAssoc(old(client.trace), RefreshCalls(client.server, ids), ThreadRefreshCalls(client.server, id));
        ids := ids + [id];
        var refreshed := RefreshAt(i);
        if refreshed.Err? {
          return Fail(refreshed.error), ids;
        }
        i := i + 1;
      }
      r := Pass;
    }
  }
}

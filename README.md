# amino.ts entity and cache layer in Dafny

This project models the in-memory entity and cache layer of the amino.ts client library. That is the member and chat-thread entities, and the collections that reconcile a batch of thread records with a community-wide cache. It proves properties about what these operations do to the entities and caches, and about which requests they send to the server.

- `js.dfy` (module `Js`) holds the part of JavaScript the code relies on:
  - JSON values, with `undefined` as `None`;
  - property reads, which throw a `TypeError` on `undefined` and `null`;
  - strict equality `===`, under which two arrays or objects are never identical;
  - `findIndex` as the function `IndexOf`.
- `remote.dfy` (module `Remote`) models the HTTP side.
  - The server is an abstract function from a request, named by verb and resource, to the JSON answer.
  - The `Client` appends every request it issues to a ghost `trace`.
  - So contracts can say exactly which requests an operation issued, in what order, and that it issued none.
- `member.dfy` (module `Members`) models `src/components/member/member.ts`:
  - `AminoMember`, a class whose eleven data fields `_set_object` overwrites in place;
  - its `refresh`;
  - the member collection constructor.
- `thread.dfy` (module `Threads`) models `src/components/thread/thread.ts`:
  - `thread_type`;
  - `AminoThread`: its constructor, `_set_object`, `refresh` and the permission gate of `ban`;
  - the thread collection: its reconciling constructor and its `refresh`;
  - the part of the community that threads use, which is its cache of threads and members and the signed-in member `me`.

The model follows the code's quirks:

- **The copy loses its id and description.** The record-to-result copy is hydrated from a thread instance rather than from a raw record. An instance has no `threadId` or `content` property, so both fields of the copy are `undefined` (`CopyLosesIdAndDescription`).
- **Double push on a miss.** When a thread is not in the cache, the cache receives both the refreshed thread and the copy.
- **`ndcId` as the community.** The member collection passes each record's `ndcId` where a community is expected. The model treats the community as opaque (`CommunityArg.Raw`).
- **Thread answers are not parsed.** `AminoThread.refresh` reads `response.thread` directly from what `request` returns, while `AminoMember.refresh` parses the body first. `request` is not part of this model, so the server's answer to a thread request is taken to be the object whose `thread` field is read. The success paths (`RefreshSucceeds`) therefore assume a `request` that exposes the parsed body's fields. With the raw response that the member code unwraps through `getBody`, `response.thread` is `undefined`, and every thread refresh throws a TypeError after its GET. The model covers that case too: a server answer with no `thread` field yields the error results of `Thread.Refresh`, of a thread miss in `Build`, and of the first element in `ThreadStorage.Refresh`.

The storage base class `IAminoStorage` is not part of this model. It is modelled as a sequence of references (`items`) under two assumptions, both stated here because the code depends on them:

- `get()` returns the live underlying sequence, so the collection sees its own earlier pushes;
- `push` returns the index of the element it appended. `Array.prototype.push` would return the new length instead, which would make `this[...]` at lines 225-229 `undefined`.

### A thread miss fetches the author

Reconciling a record whose thread is not cached costs a profile request for the thread's author, even when the record's author is already in the member cache.

- On a thread miss the constructor calls `AminoThread.refresh` (thread.ts line 209).
- That calls `_set_object` without a creator, so it fetches the thread's author as a fresh member (line 190).
- That member is not put in the member cache.

`ThreadRefreshCalls` holds that request, and `ThreadMissFetchesAuthor` states it. Each record's thread is looked up before its author (lines 206-222), and the model keeps that order.

## Model

| member | source | states |
|---|---|---|
| Js.IndexOf | src/components/thread/thread.ts:206 | `findIndex` with `===`: -1 exactly when no entry is identical to the key, otherwise the first identical position |
| Js.StrictEqReflexiveOnPrimitives | src/components/thread/thread.ts:206 | since two separately parsed arrays or objects are never `===`, a value is `===` to an equal one exactly when it is a primitive or `undefined` |
| Js.NonPrimitiveNeverFound | src/components/thread/thread.ts:206 | `findIndex` by an array or object key returns -1 whatever the ids hold, so a record whose thread id (or author uid, line 215) is an array or object never finds a cached entry |
| Js.IndexOfPrefix | src/components/thread/thread.ts:210 | appending to a searched sequence does not change a hit found in it |
| Js.AppendMissingKeepsUnique | src/components/thread/thread.ts:217-219 | appending a key that the search missed keeps the entries pairwise non-identical |
| Members.HydrateRenames | src/components/member/member.ts:59-73 | each of the eleven profile keys lands in its own field: `uid` in `id`, `nickname` in `name`, and so on |
| Members.HydrateSerialize | src/components/member/member.ts:59-73 | hydrating from a member's serialized profile gives back exactly that member's data |
| Members.SerializeKeys | src/components/member/member.ts:59-73 | a serialized member uses only profile keys and has `uid` exactly when its id is defined |
| Members.HydrateIgnoresUnknownKeys | src/components/member/member.ts:59-73 | two records that agree on the eleven profile keys hydrate to the same member |
| Members.OverwriteIdempotent | src/components/member/member.ts:59-75 | applying `_set_object` twice with one record leaves the same data as applying it once |
| Members.OverwriteForgetsPrevious | src/components/member/member.ts:59-75 | a successful hydration does not depend on the member's earlier data |
| Members.ProfileOutcomeId | src/components/member/member.ts:45-53 | after a successful refresh the member's id is the `uid` of the server's `userProfile` |
| Members.Member.constructor | src/components/member/member.ts:36-40 | client, community and id are the given ones; every other data field is undefined |
| Members.Member.SetObject | src/components/member/member.ts:59-75 | throws a TypeError, leaving the member unchanged, exactly for an `undefined`/`null` record; otherwise overwrites all eleven fields from the record and returns this member |
| Members.Member.Refresh | src/components/member/member.ts:45-53 | when the member's community is `undefined` or `null`, reading `this.community.id` throws a TypeError before any request, leaving the member as it was; otherwise it issues exactly one profile request, for the member's id, then ends as `_set_object(response.userProfile)` does, throwing with the member unchanged when that payload is missing |
| Members.FindMember | src/components/thread/thread.ts:215 | the linear search gives the position `findIndex` gives on the members' ids |
| Members.MemberStorage.Push | src/components/member/member.ts:86-88 | appends one member and returns its position |
| Members.MemberStorage.Build | src/components/member/member.ts:82-91 | empty without an array; otherwise one fresh member per record, in order, each with the record's `ndcId` as community and hydrated from the record; throws exactly on a `null` record; issues no request |
| Threads.TypeOf | src/components/thread/thread.ts:13-17 | a raw `type` reads as a thread type exactly when it is one of the codes 0, 1, 2 |
| Threads.TypeCodeRoundTrip | src/components/thread/thread.ts:13-17 | each thread type's code reads back as that type, and only that code does |
| Threads.HydrateThreadRenames | src/components/thread/thread.ts:178-188 | each of the eight record keys lands in its own field: `threadId` in `id`, `content` in `description`, and so on |
| Threads.HydrateSerializeThread | src/components/thread/thread.ts:178-188 | hydrating from a thread's serialized record gives back exactly that thread's data |
| Threads.CopyLosesIdAndDescription | src/components/thread/thread.ts:224-230 | a thread hydrated from another thread instance keeps icon, title, quota, count, keywords and type, and has no id and no description |
| Threads.ThreadRefreshCalls | src/components/thread/thread.ts:164-171 | a thread refresh requests the thread first, then requests the author's profile exactly when the payload's author can be read |
| Threads.RefreshedId | src/components/thread/thread.ts:164-179 | after a refresh the thread's id is the payload's `threadId`, not the id it was fetched under |
| Threads.ThreadMissFetchesAuthor | src/components/thread/thread.ts:209 | a thread miss issues a profile request for the thread's author, even when the record's author lookup hit the cache |
| Threads.AllowRejoin | src/components/thread/thread.ts:140 | `Number(rejoin)` is 1 for true and 0 for false |
| Threads.BanRequest | src/components/thread/thread.ts:138-148 | a DELETE that names the thread, the member and `allowRejoin` in {0,1} exactly when the creator's id is `===` the signed-in member's id; otherwise the permission error with its message |
| Threads.Thread.constructor | src/components/thread/thread.ts:47-51 | client, community and id are the given ones; every other field, creator included, is undefined |
| Threads.Thread.SetObject | src/components/thread/thread.ts:178-193 | a `null`/`undefined` record throws with nothing changed. Otherwise the eight fields come from the record. A supplied creator is taken as that same object, with no request. Without one, exactly one profile request is issued, for `author.uid`, and the creator becomes that fresh member. An unreadable author throws before any request |
| Threads.Thread.Refresh | src/components/thread/thread.ts:164-171 | issues the requests of `ThreadRefreshCalls` for the thread's id; succeeds exactly when the payload and its author's profile can be read; on success the thread holds the hydrated payload and a fresh creator hydrated from the profile |
| Threads.Thread.Ban | src/components/thread/thread.ts:138-148 | permitted: exactly one DELETE, as `BanRequest` gives it. Forbidden: the permission error and no request. A missing creator or `me` throws a TypeError with no request |
| Threads.FindThread | src/components/thread/thread.ts:206 | the linear search gives the position `findIndex` gives on the threads' ids |
| Threads.ThreadStorage.Push | src/components/thread/thread.ts:226 | appends one thread and returns its index, the assumption under which line 225 reads back the pushed copy |
| Threads.ThreadStorage.ResolveThread | src/components/thread/thread.ts:206-213 | on a hit: the cached thread with no request and no push. On a miss: one new thread refreshed under the record's id and appended to the thread cache, or nothing appended when the refresh throws. Member ids are unchanged |
| Threads.ThreadStorage.ResolveMember | src/components/thread/thread.ts:215-222 | on a hit: the cached member with no request and no push. On a miss: exactly one profile request, and the refreshed member appended to the member cache. While every profile carries the uid it was fetched under, a cache without identical ids stays that way |
| Threads.ThreadStorage.AppendCopy | src/components/thread/thread.ts:224-230 | a fresh thread with the resolved member as creator and `CopyOf` the resolved thread's data, appended to both the collection and the thread cache; no request |
| Threads.ThreadStorage.Attach | src/components/thread/thread.ts:215-230 | the author lookup, then the copy: the member is the cached one on a hit, and on a miss a fresh member holding the profile the server returns for the uid; the copy holds `CopyOf` the thread's data with that member as creator; the thread itself is left untouched; the caches and trace grow by exactly that record's contributions, and a throw changes no cache |
| Threads.ThreadStorage.Absorb | src/components/thread/thread.ts:205-231 | one record: the thread and member are the cached ones exactly on hits. On a thread miss the thread is fresh and holds what a refresh under the record's id leaves (`Refreshed`); on a member miss the member is fresh and holds the profile fetched for the uid. The copy holds `CopyOf` the thread's data. The collection grows by the copy, the thread cache by `ThreadAppends`, the member cache by `MemberAppends`, the trace by `RecordCalls`. A `null` record throws with nothing changed. A record that throws leaves the collection and the member cache as they were; the thread cache gains an entry only when its thread missed and refreshed before the author lookup threw (`FailedThreadPushes`), and that entry is a fresh thread holding what the refresh under the record's `threadId` left (`FailedPush`) |
| Threads.ThreadStorage.Reconcile | src/components/thread/thread.ts:205-231 | the `forEach` over the records, into a fresh collection on the client: every resolution holds what its record fetched (`AllFilled`: a missed thread as refreshed, a missed member as fetched, each copy as `CopyOf` its thread); when every record succeeds, one resolution and one snapshot per record, each record reconciled against the caches it found, the collection holding the copies with their members as creators, and the caches and trace grown by the records' contributions; when a record throws, the loop stops there with a TypeError and the state that record left: the caches' ids as that record found them, recorded in full, the requests it issued, and, when its thread missed and refreshed, that refreshed thread as the one new thread-cache entry, none of the threads the cache held before (`FailedPush`) |
| Threads.ThreadStorage.Build | src/components/thread/thread.ts:200-233 | without an array: an empty collection, with no request and the caches unchanged. Otherwise each record is reconciled against the caches as the records before it left them: its thread and author are hits exactly when `findIndex` finds their ids there, a hit reuses the cached object, and a missed thread or member and the copy are none of the entries the caches held. Every resolution holds what its record fetched (`AllFilled`): a missed thread what its refresh left, a missed member the profile fetched for its uid, each copy `CopyOf` its thread's data. The result holds one copy per record, in record order, each with its record's member as creator; the caches and trace grow by the records' contributions in order. The first record that throws ends the build with a TypeError: the snapshot of the caches it found has one id per cached entry; the one thread-cache entry it may have added is the thread refreshed under its `threadId`, none of the threads the cache held before (`FailedPush`); the caches keep the earlier records' entries and that record's refreshed thread, and the trace ends with that record's requests. Cache entries are never removed or reordered |
| Threads.ThreadCacheGrowth | src/components/thread/thread.ts:210-230 | the thread cache grows by one per record on a hit and by two on a miss; with `HitsAreCacheHits`, a hit is a record whose `threadId` was found in the cache as that record found it |
| Threads.MemberCacheGrowth | src/components/thread/thread.ts:215-222 | the member cache grows by exactly the number of author misses; with `HitsAreCacheHits`, a miss is a record whose `author.uid` was not found in the member cache as that record found it |
| Threads.CopiesAreCached | src/components/thread/thread.ts:224-230 | every copy put in the result is also in the thread cache |
| Threads.HitsAreCacheHits | src/components/thread/thread.ts:206-222 | in a reconciliation, a record's thread lookup hit exactly when its `threadId` is `===` an id of the thread cache as the record found it, and its author lookup exactly when its `author.uid` is `===` an id of the member cache as it found it |
| Threads.HitsIssueNothing | src/components/thread/thread.ts:205-231 | records whose thread and author lookups all hit issue no request |
| Threads.AllHitsNoRequests | src/components/thread/thread.ts:205-231 | a batch in which every record found its thread and its author in the caches as it found them issues no request |
| Threads.ThreadStorage.RefreshAt | src/components/thread/thread.ts:240 | one element's refresh, with the requests of `ThreadRefreshCalls` for its id: on success the element holds what a refresh under its old id leaves (`Refreshed`); when the payload cannot be read it keeps its data; when the payload is read its data is the payload hydrated, even if the author's profile then throws; when no thread appears twice, every other element keeps its id |
| Threads.ThreadStorage.Refresh | src/components/thread/thread.ts:238-242 | refreshes the elements one at a time in index order, under their ids from before, with the trace as `RefreshCalls` of those ids. The first refresh that throws ends the loop. The elements themselves are unchanged |
| Threads.RefreshCallsCount | src/components/thread/thread.ts:238-242 | a storage refresh issues between one and two requests per refreshed element |

## Left out

- The HTTP transport (`request`, `getBody`), URLs and the community prefix in them, the `NDCAUTH` session header and `JSON.parse` are I/O. They are replaced by the abstract server and the trace. A transport failure or a body that does not parse is not modelled. The server is a fixed function, so its answers do not change between calls: two refreshes of one thread id, or two profile fetches of one uid, get the same answer.
- `send_message`, `send_image` and `send_audio` are left out: they read files, base64-encode, read the clock and POST. They send the fixed `clientRefId` 827027430, which nothing here depends on.
- `leave` and `get_message_list` are left out: they are bare request wrappers, and `AminoMessageStorage` is not part of this model.
- The internals of `IAminoStorage`, `AminoCommunity` and `AminoClient` are not part of this model. Storage is a sequence with `push` appending, under the two assumptions above. The community is only its cache and `me`.
- JavaScript dynamic typing beyond the quirks is left out. An `array` argument that is not an array is not modelled. Records are JSON values; a record that is a string or a number is modelled through `Js.Field`, whose property reads on non-objects give `undefined`, as in JavaScript.
- Threads.ThreadStorage.Refresh: requires that every element uses the collection's client. That is true of every collection `Build` returns, and it lets the trace be stated. It ties the refreshed ids to the elements' earlier ids only when no thread appears twice. What each refresh leaves in its element is stated per call by `Thread.Refresh`, not restated after the loop.
- Threads.ThreadStorage.Build: Freshness is stated for the batch only as non-membership: a missed thread or member and each copy are none of the entries the caches held when their record was reached. That each is a newly allocated object is stated per record by `Absorb`.
- Threads.Thread.Ban: the URL prefix with `this.community.id` is not recorded, only the thread, member and `allowRejoin` the request names.
- JSON numbers are modelled as unbounded integers (`Num(n: int)`). Fractions are not modelled, and neither is IEEE-754 double equality, under which distinct integers above 2^53 can compare `===`. This matters for the id lookups at thread.ts lines 206 and 215 only when ids are numbers that large.
- Js.StrictEq: two arrays or objects are never `===`. This holds for separately parsed JSON values, which are what the records and cached ids are; a shared reference, which `===` would find identical, is not modelled.

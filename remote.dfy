/**
 * The HTTP side of the client, cut down to what the entity layer needs: the
 * requests it can issue, named by verb and resource, and a client whose
 * server is an abstract function from a request to the JSON answer. Every
 * request is appended to a ghost trace, so that contracts can say which
 * requests an operation issued, in which order, and that none was issued.
 */
module Remote {
  import opened Js

  datatype Verb = Get | Delete

  /** The resources the core addresses (the community prefix of each URL is not recorded). */
  datatype Route =
    | UserProfile(uid: Option<Value>)        // .../s/user-profile/{uid}?action=visit
    | ChatThread(threadId: Option<Value>)    // .../s/chat/thread/{threadId}
    | ThreadMember(threadId: Option<Value>, memberId: Option<Value>, allowRejoin: int)
                                             // .../s/chat/thread/{threadId}/member/{memberId}?allowRejoin=n

  datatype Call = Call(verb: Verb, route: Route)

  /**
   * What the server answers to a request: for a user profile, the parsed
   * body; for a thread, the object whose `thread` field the code reads.
   */
  type Server = Call -> Value

  class Client {
    const server: Server
    ghost var trace: seq<Call>

    constructor (server: Server)
      ensures this.server == server && trace == []
    {
      this.server := server;
      trace := [];
    }

    /** One synchronous round trip. */
    method Request(call: Call) returns (body: Value)
      modifies this
      ensures trace == old(trace) + [call]
      ensures body == server(call)
    {
      body := server(call);
      trace := trace + [call];
    }
  }
}

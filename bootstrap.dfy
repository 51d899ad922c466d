/** The start-up sequence of src/main.rs: over one management connection it
    obtains the runtime and build store ids, starts the content-fs actor,
    sends it a health check, starts the uploader (only for a new store) and
    finally the manager actor, whose id the REPL then opens a channel to.

    The server is a script of replies read one at a time; writes to the
    connection always go through. */
module Bootstrap {
  import opened Wrappers
  import opened Json
  import opened Protocol
  import opened Wire
  import opened Sequences

  /** The command-line arguments that decide the sequence. */
  datatype Args = Args(newStore: bool, storeId: Option<string>, buildStoreId: Option<string>)

  /** Why start-up stops. */
  datatype BootError =
    | MissingStoreArgs          // neither --new-store nor --store-id
    | NoResponse                // "No response received"
    | FrameFailed(reason: string)
    | Unparsable                // the reply is not a `ManagementResponse`
    | UnexpectedResponse        // "Unexpected response type"
    | MissingApiKey             // ANTHROPIC_API_KEY is not set

  /** The ids of a system that started. */
  datatype Ready = Ready(
    storeId: string,
    buildStoreId: string,
    contentFsId: string,
    uploaderId: Option<string>,
    managerId: string)

  const ContentFsManifest: string := "/Users/colinrozzi/work/actors/runtime-content-fs/actor.toml"
  const UploaderManifest: string := "/Users/colinrozzi/work/actors/actor-uploader/child-actor.toml"
  const ManagerManifest: string := "/Users/colinrozzi/work/actors/manager/actor.toml"

  function ContentFsState(storeId: string): Payload {
    Text(JObject(map["store_id" := JString(storeId)]))
  }

  function UploaderState(contentFsId: string): Payload {
    Text(JObject(map["runtime_content_fs_address" := JString(contentFsId)]))
  }

  function ManagerState(buildStoreId: string, contentFsId: string, apiKey: string): Payload {
    Text(JObject(map[
      "build_store_id" := JString(buildStoreId),
      "runtime_content_fs_actor_id" := JString(contentFsId),
      "anthropic_api_key" := JString(apiKey)]))
  }

  /** `{"action": "get-info", "params": []}`. */
  const HealthCheck: Payload := Text(JObject(map["action" := JString("get-info"), "params" := JArray([])]))

  /** The requests of `start_content_fs`, of the health check, of
      `start_actor_uploader` and of `start_manager_actor`. */
  function ContentFsRequest(storeId: string): ManagementCommand {
    ManagementCommand.StartActor(ContentFsManifest, Some(ContentFsState(storeId)))
  }

  function HealthRequest(contentFsId: string): ManagementCommand {
    RequestActorMessage(contentFsId, HealthCheck)
  }

  function UploaderRequest(contentFsId: string): ManagementCommand {
    ManagementCommand.StartActor(UploaderManifest, Some(UploaderState(contentFsId)))
  }

  function ManagerRequest(buildStoreId: string, contentFsId: string, apiKey: string): ManagementCommand {
    ManagementCommand.StartActor(ManagerManifest, Some(ManagerState(buildStoreId, contentFsId, apiKey)))
  }

  // ----- reading one reply -----

  /** The reply read at position `at` of the script, or the end of the
      stream once the script is used up. */
  function ReplyAt(replies: seq<Read>, at: nat): Read {
    if at < |replies| then replies[at] else EndOfStream
  }

  /** The reply `create_store` accepts: `StoreCreated`, giving its store id. */
  function StoreReply(reply: Read): (r: Result<string, BootError>)
    ensures r.Ok? <==> reply.Got? && reply.frame.Decodes? && reply.frame.response.StoreCreated?
    ensures r.Ok? ==> r.value == reply.frame.response.storeId
    ensures r == Err(NoResponse) <==> reply.EndOfStream?
    ensures r == Err(UnexpectedResponse) <==> reply.Got? && reply.frame.Decodes? && !reply.frame.response.StoreCreated?
  {
    match reply
    case EndOfStream => Err(NoResponse)
    case FrameError(reason) => Err(FrameFailed(reason))
    case Got(Undecodable(_)) => Err(Unparsable)
    case Got(Decodes(StoreCreated(storeId))) => Ok(storeId)
    case Got(Decodes(_)) => Err(UnexpectedResponse)
  }

  /** The reply each `start_*` accepts: `ActorStarted`, giving the actor id. */
  function StartedReply(reply: Read): (r: Result<string, BootError>)
    ensures r.Ok? <==> reply.Got? && reply.frame.Decodes? && reply.frame.response.ActorStarted?
    ensures r.Ok? ==> r.value == reply.frame.response.id
    ensures r == Err(NoResponse) <==> reply.EndOfStream?
    ensures r == Err(UnexpectedResponse) <==> reply.Got? && reply.frame.Decodes? && !reply.frame.response.ActorStarted?
  {
    match reply
    case EndOfStream => Err(NoResponse)
    case FrameError(reason) => Err(FrameFailed(reason))
    case Got(Undecodable(_)) => Err(Unparsable)
    case Got(Decodes(ActorStarted(id))) => Ok(id)
    case Got(Decodes(_)) => Err(UnexpectedResponse)
  }

  // ----- the sequence, as a function of the script -----

  /** What start-up did: its outcome, the requests it wrote in order, and
      how many replies it read. */
  datatype Trace = Trace(result: Result<Ready, BootError>, sent: seq<ManagementCommand>, read: nat)

  function Fail(e: BootError, sent: seq<ManagementCommand>, read: nat): Trace {
    Trace(Err(e), sent, read)
  }

  /** `main` up to the REPL. `readsHealthReply` is false for the program as
      written, which never reads the reply to its health check. */
  function Boot(args: Args, apiKey: Option<string>, replies: seq<Read>, readsHealthReply: bool): (r: Trace)
    ensures r.read <= |r.sent|
    ensures r.sent == [] ==> r.result.Err?
  {
    if !args.newStore && args.storeId.None? then Fail(MissingStoreArgs, [], 0)
    else
      var store := if args.newStore then StoreReply(ReplyAt(replies, 0)) else Ok(args.storeId.value);
      var sent1 := if args.newStore then [NewStore] else [];
      var at1 := if args.newStore then 1 else 0;
      if store.Err? then Fail(store.error, sent1, at1)
      else BuildStoreStage(args, apiKey, replies, readsHealthReply, store.value, sent1, at1)
  }

  function BuildStoreStage(args: Args, apiKey: Option<string>, replies: seq<Read>, readsHealthReply: bool,
                           storeId: string, sent: seq<ManagementCommand>, at: nat): Trace
  {
    var build := if args.buildStoreId.Some? then Ok(args.buildStoreId.value) else StoreReply(ReplyAt(replies, at));
    var sent2 := if args.buildStoreId.Some? then sent else sent + [NewStore];
    var at2 := if args.buildStoreId.Some? then at else at + 1;
    if build.Err? then Fail(build.error, sent2, at2)
    else ContentFsStage(args, apiKey, replies, readsHealthReply, storeId, build.value, sent2, at2)
  }

  function ContentFsStage(args: Args, apiKey: Option<string>, replies: seq<Read>, readsHealthReply: bool,
                          storeId: string, buildStoreId: string, sent: seq<ManagementCommand>, at: nat): Trace
  {
    var sent3 := sent + [ContentFsRequest(storeId)];
    var fs := StartedReply(ReplyAt(replies, at));
    if fs.Err? then Fail(fs.error, sent3, at + 1)
    else
      var sent4 := sent3 + [HealthRequest(fs.value)];
      var health := if readsHealthReply then InfoReply(ReplyAt(replies, at + 1)) else Ok(());
      var at4 := if readsHealthReply then at + 2 else at + 1;
      if health.Err? then Fail(health.error, sent4, at4)
      else ActorsStage(args, apiKey, replies, storeId, buildStoreId, fs.value, sent4, at4)
  }

  function ActorsStage(args: Args, apiKey: Option<string>, replies: seq<Read>,
                       storeId: string, buildStoreId: string, contentFsId: string, sent: seq<ManagementCommand>, at: nat): Trace
  {
    var uploader := if args.newStore then StartedReply(ReplyAt(replies, at)) else Ok("");
    var sent5 := if args.newStore then sent + [UploaderRequest(contentFsId)] else sent;
    var at5 := if args.newStore then at + 1 else at;
    if uploader.Err? then Fail(uploader.error, sent5, at5)
    else if apiKey.None? then Fail(MissingApiKey, sent5, at5)
    else
      var sent6 := sent5 + [ManagerRequest(buildStoreId, contentFsId, apiKey.value)];
      var manager := StartedReply(ReplyAt(replies, at5));
      if manager.Err? then Fail(manager.error, sent6, at5 + 1)
      else
        var uploaderId := if args.newStore then Some(uploader.value) else None;
        Trace(Ok(Ready(storeId, buildStoreId, contentFsId, uploaderId, manager.value)), sent6, at5 + 1)
  }

  /** The reply a health check deserves: the actor's `RequestedMessage`. */
  function InfoReply(reply: Read): (r: Result<(), BootError>)
    ensures r.Ok? <==> reply.Got? && reply.frame.Decodes? && reply.frame.response.RequestedMessage?
  {
    match reply
    case EndOfStream => Err(NoResponse)
    case FrameError(reason) => Err(FrameFailed(reason))
    case Got(Undecodable(_)) => Err(Unparsable)
    case Got(Decodes(RequestedMessage(_, _))) => Ok(())
    case Got(Decodes(_)) => Err(UnexpectedResponse)
  }

  // ----- the sequence as the source runs it, over one connection -----

  /** The framed connection: what has been written, the server's replies,
      and how many of them have been read. */
  class Connection {
    var sent: seq<ManagementCommand>
    const replies: seq<Read>
    var position: nat

    constructor (script: seq<Read>)
      ensures sent == [] && replies == script && position == 0
    {
      sent, replies, position := [], script, 0;
    }

    method Send(request: ManagementCommand)
      modifies this
      ensures sent == old(sent) + [request] && position == old(position)
    {
      sent := sent + [request];
    }

    method Receive() returns (reply: Read)
      modifies this
      ensures reply == ReplyAt(replies, old(position)) && position == old(position) + 1
      ensures sent == old(sent)
    {
      reply := ReplyAt(replies, position);
      position := position + 1;
    }
  }

  method CreateStore(conn: Connection) returns (r: Result<string, BootError>)
    modifies conn
    ensures conn.sent == old(conn.sent) + [NewStore]
    ensures r == StoreReply(ReplyAt(conn.replies, old(conn.position))) && conn.position == old(conn.position) + 1
  {
    conn.Send(NewStore);
    var reply := conn.Receive();
    r := StoreReply(reply);
  }

  method StartContentFs(conn: Connection, storeId: string) returns (r: Result<string, BootError>)
    modifies conn
    ensures conn.sent == old(conn.sent) + [ContentFsRequest(storeId)]
    ensures r == StartedReply(ReplyAt(conn.replies, old(conn.position))) && conn.position == old(conn.position) + 1
  {
    conn.Send(ContentFsRequest(storeId));
    var reply := conn.Receive();
    r := StartedReply(reply);
  }

  method StartActorUploader(conn: Connection, contentFsId: string) returns (r: Result<string, BootError>)
    modifies conn
    ensures conn.sent == old(conn.sent) + [UploaderRequest(contentFsId)]
    ensures r == StartedReply(ReplyAt(conn.replies, old(conn.position))) && conn.position == old(conn.position) + 1
  {
    conn.Send(UploaderRequest(contentFsId));
    var reply := conn.Receive();
    r := StartedReply(reply);
  }

  /** The health check: as written, the request is sent and its reply left
      unread; corrected, the reply is read and must be a `RequestedMessage`. */
  method CheckHealth(conn: Connection, contentFsId: string, readsReply: bool) returns (r: Result<(), BootError>)
    modifies conn
    ensures conn.sent == old(conn.sent) + [HealthRequest(contentFsId)]
    ensures readsReply ==>
      r == InfoReply(ReplyAt(conn.replies, old(conn.position))) && conn.position == old(conn.position) + 1
    ensures !readsReply ==> r == Ok(()) && conn.position == old(conn.position)
  {
    conn.Send(HealthRequest(contentFsId));
    r := Ok(());
    if readsReply {
      var reply := conn.Receive();
      r := InfoReply(reply);
    }
  }

  /** Reads the API key first: without one, nothing is sent. */
  method StartManagerActor(conn: Connection, buildStoreId: string, contentFsId: string, apiKey: Option<string>)
    returns (r: Result<string, BootError>)
    modifies conn
    ensures apiKey.None? ==> r == Err(MissingApiKey) && conn.sent == old(conn.sent) && conn.position == old(conn.position)
    ensures apiKey.Some? ==>
      && conn.sent == old(conn.sent) + [ManagerRequest(buildStoreId, contentFsId, apiKey.value)]
      && r == StartedReply(ReplyAt(conn.replies, old(conn.position))) && conn.position == old(conn.position) + 1
  {
    if apiKey.None? {
      return Err(MissingApiKey);
    }
    conn.Send(ManagerRequest(buildStoreId, contentFsId, apiKey.value));
    var reply := conn.Receive();
    r := StartedReply(reply);
  }

  /** `main` up to the REPL, over a connection nothing has been written to
      or read from yet; as written when `readsHealthReply` is false, and
      corrected when it is true. */
  method StartUp(args: Args, apiKey: Option<string>, conn: Connection, readsHealthReply: bool)
    returns (r: Result<Ready, BootError>)
    requires conn.sent == [] && conn.position == 0
    modifies conn
    ensures var t := Boot(args, apiKey, conn.replies, readsHealthReply);
      r == t.result && conn.sent == t.sent && conn.position == t.read
  {
    var storeId: string;
    if args.newStore {
      var created := CreateStore(conn);
      if created.Err? {
        return Err(created.error);
      }
      storeId := created.value;
      assert conn.sent == [NewStore] && conn.position == 1;
    } else if args.storeId.Some? {
      storeId := args.storeId.value;
    } else {
      return Err(MissingStoreArgs);
    }
    ghost var sent, at := conn.sent, conn.position;
    assert Boot(args, apiKey, conn.replies, readsHealthReply)
      == BuildStoreStage(args, apiKey, conn.replies, readsHealthReply, storeId, sent, at);
    var buildStoreId: string;
    if args.buildStoreId.Some? {
      buildStoreId := args.buildStoreId.value;
    } else {
      var created := CreateStore(conn);
      if created.Err? {
        return Err(created.error);
      }
      buildStoreId := created.value;
    }
    assert BuildStoreStage(args, apiKey, conn.replies, readsHealthReply, storeId, sent, at)
      == ContentFsStage(args, apiKey, conn.replies, readsHealthReply, storeId, buildStoreId, conn.sent, conn.position);
    r := StartServices(args, apiKey, conn, readsHealthReply, storeId, buildStoreId);
  }

  /** Once both store ids are known: the content-fs actor, its health check,
      and the actors that depend on it. */
  method StartServices(args: Args, apiKey: Option<string>, conn: Connection, readsHealthReply: bool,
                       storeId: string, buildStoreId: string)
    returns (r: Result<Ready, BootError>)
    modifies conn
    ensures var t := ContentFsStage(args, apiKey, conn.replies, readsHealthReply, storeId, buildStoreId, old(conn.sent), old(conn.position));
      r == t.result && conn.sent == t.sent && conn.position == t.read
  {
    var contentFs := StartContentFs(conn, storeId);
    if contentFs.Err? {
      return Err(contentFs.error);
    }
    var health := CheckHealth(conn, contentFs.value, readsHealthReply);
    if health.Err? {
      return Err(health.error);
    }
    r := StartActors(args, apiKey, conn, storeId, buildStoreId, contentFs.value);
  }

  /** The uploader (for a new store only), then the manager. */
  method StartActors(args: Args, apiKey: Option<string>, conn: Connection,
                     storeId: string, buildStoreId: string, contentFsId: string)
    returns (r: Result<Ready, BootError>)
    modifies conn
    ensures var t := ActorsStage(args, apiKey, conn.replies, storeId, buildStoreId, contentFsId, old(conn.sent), old(conn.position));
      r == t.result && conn.sent == t.sent && conn.position == t.read
  {
    var uploaderId: Option<string> := None;
    if args.newStore {
      var uploader := StartActorUploader(conn, contentFsId);
      if uploader.Err? {
        return Err(uploader.error);
      }
      uploaderId := Some(uploader.value);
    }
    var manager := StartManagerActor(conn, buildStoreId, contentFsId, apiKey);
    if manager.Err? {
      return Err(manager.error);
    }
    r := Ok(Ready(storeId, buildStoreId, contentFsId, uploaderId, manager.value));
  }

  /** `main` over a fresh connection and a script of replies. */
  method Launch(args: Args, apiKey: Option<string>, script: seq<Read>)
    returns (r: Result<Ready, BootError>, sent: seq<ManagementCommand>)
    ensures r == Boot(args, apiKey, script, false).result
    ensures sent == Boot(args, apiKey, script, false).sent
  {
    var conn := new Connection(script);
    r := StartUp(args, apiKey, conn, false);
    sent := conn.sent;
  }

  // ----- what start-up guarantees -----

  predicate StoreArgsGiven(args: Args) {
    args.newStore || args.storeId.Some?
  }

  /** Without `--new-store` or `--store-id`, start-up fails before writing
      anything. */
  lemma MissingStoreArgsSendsNothing(args: Args, apiKey: Option<string>, replies: seq<Read>, readsHealthReply: bool)
    requires !StoreArgsGiven(args)
    ensures Boot(args, apiKey, replies, readsHealthReply) == Trace(Err(MissingStoreArgs), [], 0)
  {
  }

  /** The requests a start-up that reached the manager writes, in order. */
  function Plan(args: Args, apiKey: string, ready: Ready): seq<ManagementCommand> {
    StoreRequests(args) + ServiceRequests(args, apiKey, ready)
  }

  /** One `NewStore` per store created. */
  function StoreRequests(args: Args): seq<ManagementCommand> {
    (if args.newStore then [NewStore] else []) + (if args.buildStoreId.None? then [NewStore] else [])
  }

  /** Content-fs, its health check, then the actors that depend on it. */
  function ServiceRequests(args: Args, apiKey: string, ready: Ready): seq<ManagementCommand> {
    [ContentFsRequest(ready.storeId), HealthRequest(ready.contentFsId)] + ActorRequests(args, apiKey, ready)
  }

  /** The uploader, for a new store only, then the manager. */
  function ActorRequests(args: Args, apiKey: string, ready: Ready): seq<ManagementCommand> {
    (if args.newStore then [UploaderRequest(ready.contentFsId)] else [])
    + [ManagerRequest(ready.buildStoreId, ready.contentFsId, apiKey)]
  }

  /** How many replies come before the content-fs reply: one per store
      created. */
  function StoresCreated(args: Args): nat {
    (if args.newStore then 1 else 0) + (if args.buildStoreId.None? then 1 else 0)
  }

  /** Where the ids of a successful start-up come from: the runtime store id
      from `create_store` with `--new-store`, else from `--store-id`; the
      build store id from `--build-store-id`, else from a further
      `create_store`; and the uploader is started exactly for a new store. */
  lemma StoreIdsChosen(args: Args, apiKey: Option<string>, replies: seq<Read>)
    requires Boot(args, apiKey, replies, false).result.Ok?
    ensures var ready := Boot(args, apiKey, replies, false).result.value;
      && |replies| > StoresCreated(args)
      && (args.newStore ==> replies[0] == Got(Decodes(StoreCreated(ready.storeId))))
      && (!args.newStore ==> Some(ready.storeId) == args.storeId)
      && (args.buildStoreId.Some? ==> Some(ready.buildStoreId) == args.buildStoreId)
      && (args.buildStoreId.None? ==>
            replies[StoresCreated(args) - 1] == Got(Decodes(StoreCreated(ready.buildStoreId))))
      && replies[StoresCreated(args)] == Got(Decodes(ActorStarted(ready.contentFsId)))
      && (ready.uploaderId.Some? <==> args.newStore)
  {
  }

  /** A successful start-up writes exactly the planned requests, in order,
      and reads one reply for each of them except the health check. */
  lemma RequestOrder(args: Args, apiKey: Option<string>, replies: seq<Read>)
    requires Boot(args, apiKey, replies, false).result.Ok?
    ensures var t := Boot(args, apiKey, replies, false);
      && apiKey.Some?
      && t.sent == Plan(args, apiKey.value, t.result.value)
      && t.read == |t.sent| - 1 <= |replies|
  {
    var t := Boot(args, apiKey, replies, false);
    var storeId := if args.newStore then ReplyAt(replies, 0).frame.response.storeId else args.storeId.value;
    var sent: seq<ManagementCommand> := if args.newStore then [NewStore] else [];
    assert t == BuildStoreStage(args, apiKey, replies, false, storeId, sent, |sent|);
    BuildStoreOk(args, apiKey, replies, false, storeId, sent, |sent|);
  }

  /** What each stage of a start-up that succeeds wrote and read. */
  lemma BuildStoreOk(args: Args, apiKey: Option<string>, replies: seq<Read>, readsHealthReply: bool,
                     storeId: string, sent: seq<ManagementCommand>, at: nat)
    requires BuildStoreStage(args, apiKey, replies, readsHealthReply, storeId, sent, at).result.Ok?
    ensures var t := BuildStoreStage(args, apiKey, replies, readsHealthReply, storeId, sent, at);
      var built := if args.buildStoreId.None? then [NewStore] else [];
      && apiKey.Some? && t.result.value.storeId == storeId
      && t.sent == sent + built + ServiceRequests(args, apiKey.value, t.result.value)
      && t.read + (if readsHealthReply then 0 else 1) == at + |built| + |ServiceRequests(args, apiKey.value, t.result.value)|
      && t.read <= |replies|
  {
    var t := BuildStoreStage(args, apiKey, replies, readsHealthReply, storeId, sent, at);
    if args.buildStoreId.None? {
      var buildStoreId := StoreReply(ReplyAt(replies, at)).value;
      assert t == ContentFsStage(args, apiKey, replies, readsHealthReply, storeId, buildStoreId, sent + [NewStore], at + 1);
      ContentFsOk(args, apiKey, replies, readsHealthReply, storeId, buildStoreId, sent + [NewStore], at + 1);
    } else {
      assert t == ContentFsStage(args, apiKey, replies, readsHealthReply, storeId, args.buildStoreId.value, sent, at);
      ContentFsOk(args, apiKey, replies, readsHealthReply, storeId, args.buildStoreId.value, sent, at);
      assert sent + [] == sent;
    }
  }

  lemma ContentFsOk(args: Args, apiKey: Option<string>, replies: seq<Read>, readsHealthReply: bool,
                    storeId: string, buildStoreId: string, sent: seq<ManagementCommand>, at: nat)
    requires ContentFsStage(args, apiKey, replies, readsHealthReply, storeId, buildStoreId, sent, at).result.Ok?
    ensures var t := ContentFsStage(args, apiKey, replies, readsHealthReply, storeId, buildStoreId, sent, at);
      && apiKey.Some? && t.result.value.storeId == storeId && t.result.value.buildStoreId == buildStoreId
      && t.sent == sent + ServiceRequests(args, apiKey.value, t.result.value)
      && t.read + (if readsHealthReply then 0 else 1) == at + |ServiceRequests(args, apiKey.value, t.result.value)|
      && t.read <= |replies|
  {
    var t := ContentFsStage(args, apiKey, replies, readsHealthReply, storeId, buildStoreId, sent, at);
    var contentFsId := StartedReply(ReplyAt(replies, at)).value;
    var checked := [ContentFsRequest(storeId), HealthRequest(contentFsId)];
    var started := sent + [ContentFsRequest(storeId)] + [HealthRequest(contentFsId)];
    assert started == sent + checked;
    var next := if readsHealthReply then at + 2 else at + 1;
    assert t == ActorsStage(args, apiKey, replies, storeId, buildStoreId, contentFsId, started, next);
    ActorsOk(args, apiKey, replies, storeId, buildStoreId, contentFsId, started, next);
    Associative(sent, checked, ActorRequests(args, apiKey.value, t.result.value));
  }

  lemma ActorsOk(args: Args, apiKey: Option<string>, replies: seq<Read>,
                 storeId: string, buildStoreId: string, contentFsId: string, sent: seq<ManagementCommand>, at: nat)
    requires ActorsStage(args, apiKey, replies, storeId, buildStoreId, contentFsId, sent, at).result.Ok?
    ensures var t := ActorsStage(args, apiKey, replies, storeId, buildStoreId, contentFsId, sent, at);
      && apiKey.Some?
      && t.result.value.storeId == storeId && t.result.value.buildStoreId == buildStoreId
      && t.result.value.contentFsId == contentFsId
      && t.sent == sent + ActorRequests(args, apiKey.value, t.result.value)
      && t.read == at + |ActorRequests(args, apiKey.value, t.result.value)|
      && t.read <= |replies|
  {
    var manager := ManagerRequest(buildStoreId, contentFsId, apiKey.value);
    if args.newStore {
      Associative(sent, [UploaderRequest(contentFsId)], [manager]);
    } else {
      assert [] + [manager] == [manager];
    }
  }

  // ----- a server that answers every request in order -----

  /** The reply a server gives to each request it serves. */
  predicate Answers(request: ManagementCommand, reply: Read) {
    && reply.Got? && reply.frame.Decodes?
    && match request
       case NewStore => reply.frame.response.StoreCreated?
       case StartActor(_, _) => reply.frame.response.ActorStarted?
       case RequestActorMessage(_, _) => reply.frame.response.RequestedMessage?
       case _ => true
  }

  /** The script holds the server's answer to each request written, in
      order. */
  predicate InOrder(requests: seq<ManagementCommand>, replies: seq<Read>) {
    |requests| <= |replies| && forall i :: 0 <= i < |requests| ==> Answers(requests[i], replies[i])
  }

  /** As written, start-up never succeeds against a server that answers
      every request in order: the step after the health check reads the
      health check's `RequestedMessage` and fails with "Unexpected response
      type". */
  lemma HonestServerNeverReady(args: Args, apiKey: Option<string>, replies: seq<Read>)
    requires StoreArgsGiven(args) && (args.newStore || apiKey.Some?)
    requires InOrder(Boot(args, apiKey, replies, false).sent, replies)
    ensures Boot(args, apiKey, replies, false).result == Err(UnexpectedResponse)
  {
    var t := Boot(args, apiKey, replies, false);
    var storeId := if args.newStore then ReplyAt(replies, 0).frame.response.storeId else args.storeId.value;
    var sent: seq<ManagementCommand> := if args.newStore then [NewStore] else [];
    if args.newStore {
      AnsweredAt(t.sent, replies, 0);
    }
    assert t == BuildStoreStage(args, apiKey, replies, false, storeId, sent, |sent|);
    BuildStoreMisread(args, apiKey, replies, storeId, sent);
  }

  lemma BuildStoreMisread(args: Args, apiKey: Option<string>, replies: seq<Read>, storeId: string, sent: seq<ManagementCommand>)
    requires args.newStore || apiKey.Some?
    requires InOrder(BuildStoreStage(args, apiKey, replies, false, storeId, sent, |sent|).sent, replies)
    ensures BuildStoreStage(args, apiKey, replies, false, storeId, sent, |sent|).result == Err(UnexpectedResponse)
  {
    var t := BuildStoreStage(args, apiKey, replies, false, storeId, sent, |sent|);
    if args.buildStoreId.None? {
      var created := StoreReply(ReplyAt(replies, |sent|));
      if created.Ok? {
        ContentFsExtends(args, apiKey, replies, false, storeId, created.value, sent + [NewStore], |sent| + 1);
      }
      assert t.sent[|sent|] == NewStore;
      AnsweredAt(t.sent, replies, |sent|);
      var buildStoreId := replies[|sent|].frame.response.storeId;
      assert t == ContentFsStage(args, apiKey, replies, false, storeId, buildStoreId, sent + [NewStore], |sent| + 1);
      ContentFsMisread(args, apiKey, replies, storeId, buildStoreId, sent + [NewStore]);
    } else {
      assert t == ContentFsStage(args, apiKey, replies, false, storeId, args.buildStoreId.value, sent, |sent|);
      ContentFsMisread(args, apiKey, replies, storeId, args.buildStoreId.value, sent);
    }
  }

  /** As written, the step after the health check reads the health check's
      reply. */
  lemma ContentFsMisread(args: Args, apiKey: Option<string>, replies: seq<Read>,
                         storeId: string, buildStoreId: string, sent: seq<ManagementCommand>)
    requires args.newStore || apiKey.Some?
    requires InOrder(ContentFsStage(args, apiKey, replies, false, storeId, buildStoreId, sent, |sent|).sent, replies)
    ensures ContentFsStage(args, apiKey, replies, false, storeId, buildStoreId, sent, |sent|).result == Err(UnexpectedResponse)
  {
    var t := ContentFsStage(args, apiKey, replies, false, storeId, buildStoreId, sent, |sent|);
    ContentFsExtends(args, apiKey, replies, false, storeId, buildStoreId, sent, |sent|);
    assert t.sent[|sent|] == ContentFsRequest(storeId);
    AnsweredAt(t.sent, replies, |sent|);
    var contentFsId := replies[|sent|].frame.response.id;
    var started := sent + [ContentFsRequest(storeId)] + [HealthRequest(contentFsId)];
    assert t == ActorsStage(args, apiKey, replies, storeId, buildStoreId, contentFsId, started, |sent| + 1);
    ActorsExtends(args, apiKey, replies, storeId, buildStoreId, contentFsId, started, |sent| + 1);
    assert t.sent[|sent| + 1] == HealthRequest(contentFsId);
    AnsweredAt(t.sent, replies, |sent| + 1);
  }

  /** Reading the health check's reply before going on, start-up succeeds
      against every such server, with the planned requests and every reply
      read. */
  lemma HonestServerReadyOnceHealthReplyRead(args: Args, apiKey: Option<string>, replies: seq<Read>)
    requires StoreArgsGiven(args) && apiKey.Some?
    requires InOrder(Boot(args, apiKey, replies, true).sent, replies)
    ensures var t := Boot(args, apiKey, replies, true);
      && t.result.Ok?
      && t.sent == Plan(args, apiKey.value, t.result.value)
      && t.read == |t.sent|
  {
    var t := Boot(args, apiKey, replies, true);
    var storeId := if args.newStore then ReplyAt(replies, 0).frame.response.storeId else args.storeId.value;
    var sent: seq<ManagementCommand> := if args.newStore then [NewStore] else [];
    if args.newStore {
      AnsweredAt(t.sent, replies, 0);
    }
    assert t == BuildStoreStage(args, apiKey, replies, true, storeId, sent, |sent|);
    BuildStoreHonest(args, apiKey.value, replies, storeId, sent);
  }

  /** The reply at position `at` answers the request written at `at`. */
  lemma AnsweredAt(requests: seq<ManagementCommand>, replies: seq<Read>, at: nat)
    requires InOrder(requests, replies) && at < |requests|
    ensures Answers(requests[at], replies[at])
  {
  }

  lemma BuildStoreHonest(args: Args, apiKey: string, replies: seq<Read>, storeId: string, sent: seq<ManagementCommand>)
    requires InOrder(BuildStoreStage(args, Some(apiKey), replies, true, storeId, sent, |sent|).sent, replies)
    ensures var t := BuildStoreStage(args, Some(apiKey), replies, true, storeId, sent, |sent|);
      && t.result.Ok? && t.result.value.storeId == storeId
      && t.sent == sent + (if args.buildStoreId.None? then [NewStore] else []) + ServiceRequests(args, apiKey, t.result.value)
      && t.read == |t.sent|
  {
    var t := BuildStoreStage(args, Some(apiKey), replies, true, storeId, sent, |sent|);
    if args.buildStoreId.None? {
      var created := StoreReply(ReplyAt(replies, |sent|));
      if created.Ok? {
        ContentFsExtends(args, Some(apiKey), replies, true, storeId, created.value, sent + [NewStore], |sent| + 1);
      }
      assert t.sent[|sent|] == NewStore;
      AnsweredAt(t.sent, replies, |sent|);
      var buildStoreId := replies[|sent|].frame.response.storeId;
      assert t == ContentFsStage(args, Some(apiKey), replies, true, storeId, buildStoreId, sent + [NewStore], |sent| + 1);
      ContentFsHonest(args, apiKey, replies, storeId, buildStoreId, sent + [NewStore]);
    } else {
      assert t == ContentFsStage(args, Some(apiKey), replies, true, storeId, args.buildStoreId.value, sent, |sent|);
      ContentFsHonest(args, apiKey, replies, storeId, args.buildStoreId.value, sent);
      assert sent + [] == sent;
    }
  }

  /** Every stage writes on after what was written before it. */
  lemma ContentFsExtends(args: Args, apiKey: Option<string>, replies: seq<Read>, readsHealthReply: bool,
                         storeId: string, buildStoreId: string, sent: seq<ManagementCommand>, at: nat)
    ensures var t := ContentFsStage(args, apiKey, replies, readsHealthReply, storeId, buildStoreId, sent, at);
      |sent| < |t.sent| && t.sent[..|sent| + 1] == sent + [ContentFsRequest(storeId)]
  {
    var fs := StartedReply(ReplyAt(replies, at));
    if fs.Ok? {
      var checked := sent + [ContentFsRequest(storeId)] + [HealthRequest(fs.value)];
      ActorsExtends(args, apiKey, replies, storeId, buildStoreId, fs.value, checked, if readsHealthReply then at + 2 else at + 1);
      assert checked[..|sent| + 1] == sent + [ContentFsRequest(storeId)];
    }
  }

  lemma ActorsExtends(args: Args, apiKey: Option<string>, replies: seq<Read>,
                      storeId: string, buildStoreId: string, contentFsId: string, sent: seq<ManagementCommand>, at: nat)
    ensures var t := ActorsStage(args, apiKey, replies, storeId, buildStoreId, contentFsId, sent, at);
      |sent| <= |t.sent| && t.sent[..|sent|] == sent
  {
  }

  lemma ContentFsHonest(args: Args, apiKey: string, replies: seq<Read>, storeId: string, buildStoreId: string,
                        sent: seq<ManagementCommand>)
    requires InOrder(ContentFsStage(args, Some(apiKey), replies, true, storeId, buildStoreId, sent, |sent|).sent, replies)
    ensures var t := ContentFsStage(args, Some(apiKey), replies, true, storeId, buildStoreId, sent, |sent|);
      && t.result.Ok? && t.result.value.storeId == storeId && t.result.value.buildStoreId == buildStoreId
      && t.sent == sent + ServiceRequests(args, apiKey, t.result.value)
      && t.read == |t.sent|
  {
    var t := ContentFsStage(args, Some(apiKey), replies, true, storeId, buildStoreId, sent, |sent|);
    AnsweredAt(t.sent, replies, |sent|);
    var contentFsId := replies[|sent|].frame.response.id;
    AnsweredAt(t.sent, replies, |sent| + 1);
    var checked := [ContentFsRequest(storeId), HealthRequest(contentFsId)];
    var started := sent + [ContentFsRequest(storeId)] + [HealthRequest(contentFsId)];
    assert started == sent + checked;
    assert t == ActorsStage(args, Some(apiKey), replies, storeId, buildStoreId, contentFsId, started, |started|);
    ActorsHonest(args, apiKey, replies, storeId, buildStoreId, contentFsId, started);
    Associative(sent, checked, ActorRequests(args, apiKey, t.result.value));
  }

  lemma ActorsHonest(args: Args, apiKey: string, replies: seq<Read>, storeId: string, buildStoreId: string,
                     contentFsId: string, sent: seq<ManagementCommand>)
    requires InOrder(ActorsStage(args, Some(apiKey), replies, storeId, buildStoreId, contentFsId, sent, |sent|).sent, replies)
    ensures var t := ActorsStage(args, Some(apiKey), replies, storeId, buildStoreId, contentFsId, sent, |sent|);
      && t.result.Ok?
      && t.result.value.storeId == storeId && t.result.value.buildStoreId == buildStoreId
      && t.result.value.contentFsId == contentFsId
      && t.sent == sent + ActorRequests(args, apiKey, t.result.value)
      && t.read == |t.sent|
  {
    var t := ActorsStage(args, Some(apiKey), replies, storeId, buildStoreId, contentFsId, sent, |sent|);
    if args.newStore {
      AnsweredAt(t.sent, replies, |sent|);
      AnsweredAt(t.sent, replies, |sent| + 1);
      Associative(sent, [UploaderRequest(contentFsId)], [ManagerRequest(buildStoreId, contentFsId, apiKey)]);
    } else {
      AnsweredAt(t.sent, replies, |sent|);
      assert [] + [ManagerRequest(buildStoreId, contentFsId, apiKey)] == [ManagerRequest(buildStoreId, contentFsId, apiKey)];
    }
  }

  /** An existing store, a given build store, and a server that answers in
      order: the program as written stops at the manager, which the
      corrected sequence starts. */
  lemma HealthReplyTakenForManager()
    ensures var args := Args(false, Some("rt"), Some("bs"));
      var script := [
        Got(Decodes(ActorStarted("fs"))),
        Got(Decodes(RequestedMessage("fs", Text(JNull)))),
        Got(Decodes(ActorStarted("mgr")))];
      && Boot(args, Some("key"), script, false).result == Err(UnexpectedResponse)
      && Boot(args, Some("key"), script, true).result == Ok(Ready("rt", "bs", "fs", None, "mgr"))
  {
  }
}

/** The durable result outbox and its publisher, composed with a daemon that
    deduplicates on the idempotency key. Enqueues, publishing passes (several at
    once), completions, lost answers, failed writes and restarts interleave freely. */
module ResultOutbox {
  import opened Common
  import opened JsonText
  import opened Sorting

  type Bytes = seq<bv8>

  datatype Source = Source(eventID: string, conversationID: string, senderID: string, createdAt: nat)

  /** The immutable content of a result. */
  datatype Item = Item(
    eventID: string, conversationID: string, senderID: string, createdAt: nat,
    kind: string, result: Bytes, digest: string)

  datatype Record = Record(item: Item, done: bool)
  datatype File = Torn | Stored(rec: Record)

  datatype Route = Route(sessionID: string, endpointID: string)

  /** What the daemon is asked to compose. */
  datatype Message = Message(
    conversationID: string, replyTo: string, kind: string, protocol: string, body: Bytes, key: string,
    sessionID: string, endpointID: string, expiresAt: nat)

  datatype Env = Env(
    digest: Bytes -> string,
    key: (string, string) -> string,
    routes: map<string, Route>,
    lifetime: nat,
    maxResult: nat)

  function MaxRecord(env: Env): nat { env.maxResult + 0x8000 }

  datatype Create = Created | CreateUndone | CreateLeftTorn | CreateLeft
  /** The daemon rejects the request, or queues it (once per key) and answers; the
      answer may be lost. */
  datatype Daemon = Rejected | Queued(answered: bool)

  datatype Loop = Loop(items: seq<Item>, next: nat, called: bool, queued: nat, retained: nat)

  datatype BridgeState = BridgeState(
    open: bool, files: map<string, File>, loops: map<nat, Loop>,
    daemon: map<string, Message>, calls: seq<Message>, queue: seq<Message>)

  datatype Event =
    | Open
    | Stop
    | Enqueue(source: Source, kind: string, result: Bytes, create: Create)
    | Snapshot(loop: nat, names: seq<string>)
    | CallDaemon(loop: nat, cancelled: bool, daemon: Daemon)
    | CompleteItem(loop: nat, write: Write)

  // ------------------------------------------------------------------ records

  predicate EventPattern(s: string) { |s| == 68 && s[..4] == "evt_" && LowerHex(s[4..]) }
  predicate KindOk(kind: string) { kind == "a2a.message" || kind == "mcp.result" }

  predicate ItemOk(env: Env, i: Item) {
    && EventPattern(i.eventID) && i.conversationID != "" && i.senderID != "" && i.createdAt > 0 && KindOk(i.kind)
    && 0 < |i.result| <= env.maxResult && DigestPattern(i.digest) && i.digest == env.digest(i.result)
  }

  /** The fixed part of an encoded record. */
  const FRAME := "{\"schema\":\"tos.service.messenger-result-outbox.v2\",\"source_event_id\":,\"conversation_id\":," +
                 "\"sender_agent_id\":,\"source_created_at_unix\":,\"result_kind\":,\"result_json\":," +
                 "\"result_digest\":,\"state\":}"

  /** The encoded length of a result, its state left blank. */
  function ItemSize(i: Item): nat {
    |FRAME| + QuotedLength(i.eventID) + QuotedLength(i.conversationID) + QuotedLength(i.senderID)
    + NumberLength(i.createdAt) + QuotedLength(i.kind) + Base64Length(|i.result|) + QuotedLength(i.digest)
  }

  /** The encoded length of a record, without the final newline. */
  function RecordSize(r: Record): nat {
    ItemSize(r.item) + |if r.done then "\"complete\"" else "\"pending\""|
  }

  /** A record file is its encoding and a newline; both count against the bound. */
  predicate Readable(env: Env, r: Record) {
    ItemOk(env, r.item) && RecordSize(r) + 1 <= MaxRecord(env)
  }

  function Read(env: Env, files: map<string, File>, id: string): Option<Record> {
    if id in files && files[id].Stored? && Readable(env, files[id].rec) then Some(files[id].rec) else None
  }

  function NewItem(env: Env, s: Source, kind: string, result: Bytes): Item {
    Item(s.eventID, s.conversationID, s.senderID, s.createdAt, kind, result, env.digest(result))
  }

  predicate SourceOk(env: Env, s: Source, kind: string, result: Bytes) {
    && EventPattern(s.eventID) && s.conversationID != "" && s.senderID != "" && s.createdAt != 0
    && KindOk(kind) && 0 < |result| <= env.maxResult
    && RecordSize(Record(NewItem(env, s, kind, result), false)) <= MaxRecord(env)
  }

  /** The request a result turns into, for a routed sender. */
  function MessageOf(env: Env, i: Item): Message
    requires i.senderID in env.routes
  {
    var route := env.routes[i.senderID];
    Message(i.conversationID, i.eventID, i.kind, if i.kind == "a2a.message" then "a2a" else "mcp", i.result,
            env.key(i.eventID, i.digest), route.sessionID, route.endpointID,
            (i.createdAt + env.lifetime) % 0x1_0000_0000_0000_0000)
  }

  function ItemKey(i: Item): string { i.eventID }

  // -------------------------------------------------------------------- steps

  function StepEnqueue(env: Env, s: BridgeState, source: Source, kind: string, result: Bytes,
                       create: Create): (BridgeState, bool) {
    if !SourceOk(env, source, kind, result) || !s.open then (s, false)
    else
      var id := source.eventID;
      var r := Record(NewItem(env, source, kind, result), false);
      if id in s.files then (s, Read(env, s.files, id).Some? && Read(env, s.files, id).value.item == r.item)
      else
        match create
        case Created => (s.(files := s.files[id := Stored(r)]), true)
        case CreateUndone => (s, false)
        case CreateLeftTorn => (s.(files := s.files[id := Torn]), false)
        case CreateLeft => (s.(files := s.files[id := Stored(r)]), false)
  }

  ghost predicate Listing(files: map<string, File>, names: seq<string>) {
    && (forall i, j :: 0 <= i < j < |names| ==> names[i] != names[j])
    && (forall id :: id in names <==> id in files)
  }

  /** The pending items in listing order; nothing at all if one file is unreadable. */
  function Collect(env: Env, files: map<string, File>, names: seq<string>): Option<seq<Item>> {
    if names == [] then Some([])
    else
      var n := |names| - 1;
      var rest := Collect(env, files, names[..n]);
      var r := Read(env, files, names[n]);
      if rest.None? || r.None? then None
      else if r.value.done then rest
      else Some(rest.value + [r.value.item])
  }

  ghost function StepSnapshot(env: Env, s: BridgeState, loop: nat, names: seq<string>): (BridgeState, bool) {
    if !s.open || loop in s.loops || !Listing(s.files, names) then (s, false)
    else
      var items := Collect(env, s.files, names);
      if items.None? then (s, false)
      else (s.(loops := s.loops[loop := Loop(Arranged(items.value, ItemKey), 0, false, 0, 0)]), true)
  }

  function Retain(l: Loop): Loop { l.(next := l.next + 1, called := false, retained := l.retained + 1) }
  function Count(l: Loop): Loop { l.(next := l.next + 1, called := false, queued := l.queued + 1) }

  function StepCall(env: Env, s: BridgeState, loop: nat, cancelled: bool, daemon: Daemon): (BridgeState, bool) {
    if loop !in s.loops || s.loops[loop].called || s.loops[loop].next >= |s.loops[loop].items| then (s, false)
    else
      var l := s.loops[loop];
      var item := l.items[l.next];
      if cancelled then (s.(loops := s.loops - {loop}), false)
      else if item.senderID !in env.routes then (s.(loops := s.loops[loop := Retain(l)]), false)
      else
        var m := MessageOf(env, item);
        var t := s.(calls := s.calls + [m]);
        if daemon.Rejected? then (t.(loops := s.loops[loop := Retain(l)]), false)
        else
          var u := if m.key in s.daemon then t else t.(daemon := s.daemon[m.key := m], queue := s.queue + [m]);
          if daemon.answered then (u.(loops := s.loops[loop := l.(called := true)]), true)
          else (u.(loops := s.loops[loop := Retain(l)]), false)
  }

  /** Marking a result complete; `true` is a nil error. */
  function Completed(env: Env, files: map<string, File>, id: string, digest: string, write: Write): (map<string,
                                                                                                     File>, bool) {
    if !EventPattern(id) || !DigestPattern(digest) then (files, false)
    else
      var r := Read(env, files, id);
      if r.None? || r.value.item.digest != digest then (files, false)
      else if r.value.done then (files, true)
      else (if write == FailedOld then files else files[id := Stored(r.value.(done := true))], write == Written)
  }

  function StepComplete(env: Env, s: BridgeState, loop: nat, write: Write): (BridgeState, bool) {
    if loop !in s.loops || !s.loops[loop].called || s.loops[loop].next >= |s.loops[loop].items| || !s.open
        then (s, false)
    else
      var l := s.loops[loop];
      var item := l.items[l.next];
      var (files, ok) := Completed(env, s.files, item.eventID, item.digest, write);
      (s.(files := files, loops := s.loops[loop := if ok then Count(l) else Retain(l)]), ok)
  }

  ghost function Step(env: Env, s: BridgeState, e: Event): (BridgeState, bool) {
    match e
    case Open => (s.(open := true), true)
    case Stop => (s.(open := false, loops := map[]), true)
    case Enqueue(source, kind, result, create) => StepEnqueue(env, s, source, kind, result, create)
    case Snapshot(loop, names) => StepSnapshot(env, s, loop, names)
    case CallDaemon(loop, cancelled, daemon) => StepCall(env, s, loop, cancelled, daemon)
    case CompleteItem(loop, write) => StepComplete(env, s, loop, write)
  }

  const INITIAL := BridgeState(false, map[], map[], map[], [], [])

  ghost function RunFrom(env: Env, s: BridgeState, events: seq<Event>): BridgeState {
    if events == [] then s else Step(env, RunFrom(env, s, events[..|events| - 1]), events[|events| - 1]).0
  }

  ghost function Run(env: Env, events: seq<Event>): BridgeState { RunFrom(env, INITIAL, events) }
}

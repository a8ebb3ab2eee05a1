/**
 The interpreter of one turn's provider events: what each decoded event does to
 the tracker, as functions of its state.  Text that arrives before its message
 is announced is queued; two event families may carry the same text; snapshots
 and deltas of a part are merged.
 */
module Tracker {
  import opened Base

  const MAX_EVENTS := 2048
  const MAX_MESSAGES := 512
  const MAX_PARTS := 512
  const MAX_PENDING := 512
  const MAX_PENDING_BYTES := 32768
  const MAX_IDENTITY := 512
  const NUL := '\0'

  datatype Family = MessagePart | Compatibility

  datatype Kind = Text | Reasoning

  datatype Role = Assistant | User | System

  datatype ErrorCode = ProtocolError | RateLimited | Unauthorized | Unavailable

  /** `Over` is the successful end of the turn. */
  datatype Reply = Next | Over | Fail(code: ErrorCode)

  // ---------------------------------------------------------------------------
  // Decoded events

  datatype Finish = NoFinish | BadFinish | ToolFinish | FinalFinish

  /** A role other than the three known ones is `None`; an absent, null or empty error is `None`. */
  datatype Info = Info(id: string, role: Option<Role>, parent: string, finish: Finish, error: Option<ErrorCode>)

  /** `spoken` tells whether the part's own role, if any, is the assistant's; other part types have no kind. */
  datatype PartInfo = PartInfo(id: string, message: string, kind: Option<Kind>, text: string, spoken: bool)

  datatype Body =
    | MessageUpdated(info: Option<Info>)
    | PartDelta(onText: bool, message: string, part: string, delta: string)
    | PartUpdated(shown: Option<PartInfo>)
    | TextDelta(message: string, textId: string, delta: string)
    | Status(state: Option<string>)
    | Idle
    | SessionError(code: ErrorCode)
    | Other(tool: bool, message: string)

  /** `sessions` lists the session ids the event carries; `Garbled` could not be decoded. */
  datatype Record = Garbled | Record(id: string, sessions: seq<string>, body: Body)

  // ---------------------------------------------------------------------------
  // State

  datatype Part = Part(text: string, kind: Kind)

  datatype Pending =
    | PendingDelta(key: string, delta: string)
    | PendingFull(key: string, kind: Kind, text: string)
    | PendingCompat(textId: string, delta: string)

  /**
   What went to the sink.  The sink itself sees the kind and the text of a delta;
   message, family and key say where it came from.
   */
  datatype Sent =
    | Delta(message: string, family: Family, key: string, kind: Kind, text: string)
    | ProviderState(name: string)

  /** Text sent so far: per message the family that spoke first and the one settled on, per key the family and the part. */
  datatype Texts = Texts(
    activity: bool,
    first: map<string, Family>,
    fallback: map<string, Family>,
    families: map<string, Family>,
    parts: map<string, Part>,
    sent: seq<Sent>)

  /** Text of messages that are not announced yet. */
  datatype Queue = Queue(pending: map<string, seq<Pending>>, records: int, bytes: int)

  datatype Names = Names(
    prompt: string,
    promptSeen: bool,
    roles: map<string, Role>,
    parents: map<string, string>,
    current: set<string>)

  datatype State = State(
    session: string,
    armed: bool,
    final: bool,
    idle: bool,
    seen: set<string>,
    names: Names,
    texts: Texts,
    queue: Queue)

  datatype Did = Did(t: State, reply: Reply)

  datatype Said = Said(x: Texts, ok: bool)

  function New(session: string, prompt: string): State {
    State(session, false, false, false, {}, Names(prompt, false, map[], map[], {}),
          Texts(false, map[], map[], map[], map[], []), Queue(map[], 0, 0))
  }

  // ---------------------------------------------------------------------------
  // Identities

  predicate ValidId(id: string) {
    id != "" && |id| <= MAX_IDENTITY && NUL !in id
  }

  function PartKey(message: string, part: string): string {
    if message == "" || part == "" then "" else message + [NUL] + part
  }

  /** The key belongs to a part of the message. */
  predicate KeyOf(message: string, key: string) {
    message + [NUL] <= key
  }

  // ---------------------------------------------------------------------------
  // Emission

  function RecordFirst(x: Texts, m: string, f: Family): Texts {
    if m in x.first then x else x.(first := x.first[m := f])
  }

  function Send(x: Texts, m: string, f: Family, key: string, kind: Kind, text: string): Texts {
    RecordFirst(x, m, f).(activity := true, sent := x.sent + [Delta(m, f, key, kind, text)])
  }

  /** The first delta without a text id settles which family speaks for the message. */
  function Settle(x: Texts, m: string): Texts {
    if m in x.fallback then x
    else x.(fallback := x.fallback[m := if m in x.first then x.first[m] else Compatibility])
  }

  /** Claims the message, or the part if it has an id, for the compatibility family unless the other one was first. */
  function Claim(x: Texts, m: string, textId: string): Texts {
    var key := PartKey(m, textId);
    if textId == "" then Settle(x, m)
    else if m in x.fallback || key in x.families then x
    else x.(families := x.families[key := Compatibility])
  }

  predicate Claimed(x: Texts, m: string, key: string) {
    if m in x.fallback then x.fallback[m] == Compatibility
    else key in x.families && x.families[key] == Compatibility
  }

  function EmitCompat(x: Texts, m: string, textId: string, delta: string): Texts {
    var y, key := Claim(x, m, textId), PartKey(m, textId);
    if Claimed(y, m, key) then Send(y, m, Compatibility, key, Text, delta) else y
  }

  /** The other family already speaks for the message or for the part. */
  predicate Muted(x: Texts, m: string, key: string) {
    || (m in x.fallback && x.fallback[m] != MessagePart)
    || (key in x.families && x.families[key] != MessagePart)
  }

  /** The part under the key, created if need be; a part never changes its kind. */
  function GetPart(x: Texts, key: string, kind: Option<Kind>): Option<Texts> {
    if key == "" then None
    else if key in x.parts then
      if kind.Some? && x.parts[key].kind != kind.value then None else Some(x)
    else if |x.parts| >= MAX_PARTS then None
    else Some(x.(parts := x.parts[key := Part("", if kind.Some? then kind.value else Text)]))
  }

  /** Extends a part's text by the delta and sends the delta. */
  function Extend(x: Texts, m: string, key: string, delta: string): Texts
    requires key in x.parts
  {
    var part := x.parts[key];
    Send(x.(families := x.families[key := MessagePart], parts := x.parts[key := part.(text := part.text + delta)]),
         m, MessagePart, key, part.kind, delta)
  }

  function EmitDelta(x: Texts, m: string, key: string, delta: string): Said {
    if Muted(x, m, key) then Said(x, true)
    else
      match GetPart(x, key, None)
      case None => Said(x, false)
      case Some(x1) => Said(Extend(x1, m, key, delta), true)
  }

  function Merge(x: Texts, m: string, key: string, text: string): Said
    requires key in x.parts
  {
    var had := x.parts[key].text;
    if text <= had then Said(x, true)
    else if !(had <= text) then Said(x, false)
    else Said(Extend(x, m, key, text[|had|..]), true)
  }

  function EmitFull(x: Texts, m: string, key: string, kind: Kind, text: string): Said {
    if Muted(x, m, key) then Said(x, true)
    else
      match GetPart(x, key, Some(kind))
      case None => Said(x, false)
      case Some(x1) => Merge(x1, m, key, text)
  }

  function Deliver(x: Texts, m: string, p: Pending): Said {
    match p
    case PendingDelta(key, delta) => EmitDelta(x, m, key, delta)
    case PendingFull(key, kind, text) => EmitFull(x, m, key, kind, text)
    case PendingCompat(textId, delta) => Said(EmitCompat(x, m, textId, delta), true)
  }

  function Flush(x: Texts, m: string, ps: seq<Pending>): Said
    decreases |ps|
  {
    if ps == [] then Said(x, true)
    else
      var s := Deliver(x, m, ps[0]);
      if !s.ok then s else Flush(s.x, m, ps[1..])
  }

  // ---------------------------------------------------------------------------
  // The queue

  function Size(p: Pending): nat {
    match p
    case PendingDelta(_, delta) => |delta|
    case PendingFull(_, _, text) => |text|
    case PendingCompat(_, delta) => |delta|
  }

  function Bytes(ps: seq<Pending>): nat {
    if ps == [] then 0 else Bytes(ps[..|ps| - 1]) + Size(ps[|ps| - 1])
  }

  function Waiting(q: Queue, m: string): seq<Pending> {
    if m in q.pending then q.pending[m] else []
  }

  predicate Fits(q: Queue, p: Pending) {
    q.records < MAX_PENDING && Size(p) <= MAX_PENDING_BYTES && q.bytes <= MAX_PENDING_BYTES - Size(p)
  }

  function Enqueue(q: Queue, m: string, p: Pending): Queue {
    Queue(q.pending[m := Waiting(q, m) + [p]], q.records + 1, q.bytes + Size(p))
  }

  function ClearPending(q: Queue, m: string): Queue {
    Queue(q.pending - {m}, q.records - |Waiting(q, m)|, q.bytes - Bytes(Waiting(q, m)))
  }

  // ---------------------------------------------------------------------------
  // Text events

  datatype Carried = Nothing | Invalid | Carried(message: string, p: Pending)

  function CarriedByPart(shown: Option<PartInfo>): Carried {
    if shown.None? || shown.value.kind.None? then Nothing
    else if !ValidId(shown.value.message) || !ValidId(shown.value.id) then Invalid
    else if !shown.value.spoken then Nothing
    else Carried(shown.value.message,
                 PendingFull(PartKey(shown.value.message, shown.value.id), shown.value.kind.value, shown.value.text))
  }

  /** The text an event carries and the message it belongs to. */
  function TextOf(body: Body): Carried {
    match body
    case PartDelta(onText, message, part, delta) =>
      if !onText || delta == "" then Nothing
      else if !ValidId(message) || !ValidId(part) then Invalid
      else Carried(message, PendingDelta(PartKey(message, part), delta))
    case PartUpdated(shown) => CarriedByPart(shown)
    case TextDelta(message, textId, delta) =>
      if delta == "" || message == "" then Nothing
      else if !ValidId(message) || (textId != "" && !ValidId(textId)) then Invalid
      else Carried(message, PendingCompat(textId, delta))
    case _ => Nothing
  }

  function Checked(t: State, s: Said): Did {
    Did(t.(texts := s.x), if s.ok then Next else Fail(ProtocolError))
  }

  /** Text of a current assistant is sent, of an unknown message queued, of any other message dropped. */
  function Offer(t: State, m: string, p: Pending): Did {
    if m in t.names.current then Checked(t, Deliver(t.texts, m, p))
    else if m in t.names.roles then Did(t, Next)
    else if Fits(t.queue, p) then Did(t.(queue := Enqueue(t.queue, m, p)), Next)
    else Did(t, Fail(ProtocolError))
  }

  function TextEvent(t: State, body: Body): Did {
    match TextOf(body)
    case Nothing => Did(t, Next)
    case Invalid => Did(t, Fail(ProtocolError))
    case Carried(m, p) => Offer(t, m, p)
  }

  // ---------------------------------------------------------------------------
  // Announcements

  function ParentOf(n: Names, m: string): string {
    if m in n.parents then n.parents[m] else ""
  }

  /** The announcement is refused: a bad identity, one message too many, or a message that changes who it is. */
  predicate Refused(n: Names, info: Info) {
    || !ValidId(info.id) || (info.parent != "" && !ValidId(info.parent))
    || (info.role.Some? && info.id !in n.roles && |n.roles| >= MAX_MESSAGES)
    || (info.role.Some? && info.id in n.roles
        && (n.roles[info.id] != info.role.value || ParentOf(n, info.id) != info.parent))
  }

  /** The first user message after the dispatch is the prompt, unless it was given. */
  function PromptAfter(n: Names, info: Info): string {
    if info.role == Some(User) && n.prompt == "" then info.id else n.prompt
  }

  /** The message is an answer to this turn's prompt. */
  predicate Answers(n: Names, info: Info) {
    info.role == Some(Assistant) && n.prompt != "" && info.parent == n.prompt
  }

  function Register(n: Names, info: Info): Names
    requires info.role.Some?
  {
    Names(PromptAfter(n, info),
          n.promptSeen || (info.role == Some(User) && info.id == PromptAfter(n, info)),
          n.roles[info.id := info.role.value], n.parents[info.id := info.parent],
          if Answers(n, info) then n.current + {info.id} else n.current)
  }

  function Settled(t: State): Did {
    Did(t, if t.idle && t.final then Over else Next)
  }

  function FlushAndClear(t: State, m: string): Did {
    var s := Flush(t.texts, m, Waiting(t.queue, m));
    if !s.ok then Checked(t, s) else Settled(t.(texts := s.x, queue := ClearPending(t.queue, m)))
  }

  function AnnounceCurrent(t: State, info: Info): Did {
    if info.error.Some? then Did(t, Fail(info.error.value))
    else if info.finish.BadFinish? then Did(t, Fail(ProtocolError))
    else FlushAndClear(t.(final := t.final || info.finish.FinalFinish?), info.id)
  }

  function Registered(t: State, info: Info): State
    requires info.role.Some?
  {
    t.(names := Register(t.names, info), texts := t.texts.(activity := t.texts.activity || Answers(t.names, info)))
  }

  /** A registered message: a current assistant is judged and flushed, any other loses what waits for it. */
  function Admit(t: State, info: Info): Did {
    if info.id in t.names.current then AnnounceCurrent(t, info)
    else Settled(t.(queue := ClearPending(t.queue, info.id)))
  }

  function Announce(t: State, info: Info): Did {
    if Refused(t.names, info) then Did(t, Fail(ProtocolError))
    else if info.role.None? then Did(t, Next)
    else Admit(Registered(t, info), info)
  }

  // ---------------------------------------------------------------------------
  // One event

  /** All session ids an event carries are valid and the same. */
  predicate SessionsAgree(ids: seq<string>) {
    forall i | 0 <= i < |ids| && ids[i] != "" ::
      |ids[i]| <= MAX_IDENTITY && NUL !in ids[i] && ids[i] == SessionOf(ids)
  }

  function SessionOf(ids: seq<string>): string {
    if ids == [] then "" else if ids[0] != "" then ids[0] else SessionOf(ids[1..])
  }

  function ObserveIdle(t: State): Did {
    Settled(t.(idle := t.idle || t.texts.activity))
  }

  function Forward(t: State, name: string): State {
    t.(texts := t.texts.(sent := t.texts.sent + [ProviderState(name)]))
  }

  /** Events that are not about a message. */
  function Signal(t: State, body: Body): Did {
    match body
    case Status(state) =>
      if state.None? then Did(t, Fail(ProtocolError))
      else if state.value == "idle" then ObserveIdle(Forward(t, state.value))
      else Settled(Forward(t, state.value))
    case Idle => ObserveIdle(t)
    case SessionError(code) => if !t.names.promptSeen && !t.texts.activity then Did(t, Next) else Did(t, Fail(code))
    case Other(tool, message) =>
      Did(t.(texts := t.texts.(activity := t.texts.activity || (tool && message in t.names.current))), Next)
    case _ => Did(t, Next)
  }

  function Dispatch(t: State, body: Body): Did {
    match body
    case MessageUpdated(info) => if info.None? then Did(t, Next) else Announce(t, info.value)
    case PartDelta(_, _, _, _) | PartUpdated(_) | TextDelta(_, _, _) => TextEvent(t, body)
    case _ => Signal(t, body)
  }

  /** The event is for this session, after the prompt was dispatched, and new. */
  predicate Accepted(t: State, r: Record) {
    r.Record? && SessionsAgree(r.sessions) && SessionOf(r.sessions) == t.session && t.armed && r.id !in t.seen
  }

  predicate Undecodable(r: Record) {
    r.Garbled? || r.id == "" || |r.id| > MAX_IDENTITY || !SessionsAgree(r.sessions)
  }

  function Consume(t: State, dispatched: bool, r: Record): Did {
    var t0 := t.(armed := t.armed || dispatched);
    if Undecodable(r) then Did(t0, Fail(ProtocolError))
    else if !Accepted(t0, r) then Did(t0, Next)
    else if |t0.seen| >= MAX_EVENTS then Did(t0, Fail(ProtocolError))
    else Dispatch(t0.(seen := t0.seen + {r.id}), r.body)
  }

  datatype Input = Input(dispatched: bool, r: Record)

  /** A whole stream, up to the first event that ends the turn. */
  function ConsumeAll(t: State, inputs: seq<Input>): Did
    decreases |inputs|
  {
    if inputs == [] then Did(t, Next)
    else
      var d := Consume(t, inputs[0].dispatched, inputs[0].r);
      if d.reply.Next? then ConsumeAll(d.t, inputs[1..]) else d
  }
}

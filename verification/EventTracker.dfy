/**
 The tracker as it is written: one object whose maps, flags and counters are
 updated in place, event by event.  Every method is proved to do what the
 corresponding function of the state says.
 */
module EventTracker {
  import opened Base
  import opened Tracker
  import opened TrackerInvariant

  class EventTracker {
    const externalSessionId: string
    var promptMessageId: string
    var armed: bool
    var promptSeen: bool
    var assistantActivity: bool
    var assistantFinal: bool
    var idleObserved: bool
    var seenIds: set<string>
    var messageRoles: map<string, Role>
    var messageParents: map<string, string>
    var currentAssistants: set<string>
    var firstTextFamily: map<string, Family>
    var fallbackFamily: map<string, Family>
    var families: map<string, Family>
    var parts: map<string, Part>
    var pending: map<string, seq<Pending>>
    var pendingRecords: int
    var pendingBytes: int
    var sent: seq<Sent>

    function TextsNow(): Texts
      reads this
    {
      Texts(assistantActivity, firstTextFamily, fallbackFamily, families, parts, sent)
    }

    function QueueNow(): Queue
      reads this
    {
      Queue(pending, pendingRecords, pendingBytes)
    }

    function NamesNow(): Names
      reads this
    {
      Names(promptMessageId, promptSeen, messageRoles, messageParents, currentAssistants)
    }

    function Now(): State
      reads this
    {
      State(externalSessionId, armed, assistantFinal, idleObserved, seenIds, NamesNow(), TextsNow(), QueueNow())
    }

    ghost predicate Valid()
      reads this
    {
      Inv(Now())
    }

    constructor (session: string, prompt: string)
      ensures Valid() && Now() == New(session, prompt)
    {
      externalSessionId, promptMessageId := session, prompt;
      armed, promptSeen, assistantActivity, assistantFinal, idleObserved := false, false, false, false, false;
      seenIds, messageRoles, messageParents, currentAssistants := {}, map[], map[], {};
      firstTextFamily, fallbackFamily, families, parts := map[], map[], map[], map[];
      pending, pendingRecords, pendingBytes, sent := map[], 0, 0, [];
      new;
      NewFits(session, prompt);
    }

    // -------------------------------------------------------------------------
    // Emission

    method RecordFirstFamily(m: string, f: Family)
      modifies this`firstTextFamily
      ensures TextsNow() == RecordFirst(old(TextsNow()), m, f)
    {
      if m !in firstTextFamily {
        firstTextFamily := firstTextFamily[m := f];
      }
    }

    /** Records the family, notes activity and passes the delta to the sink. */
    method SendDelta(m: string, f: Family, key: string, kind: Kind, delta: string)
      modifies this`firstTextFamily, this`assistantActivity, this`sent
      ensures TextsNow() == Send(old(TextsNow()), m, f, key, kind, delta)
    {
      RecordFirstFamily(m, f);
      assistantActivity := true;
      sent := sent + [Delta(m, f, key, kind, delta)];
    }

    method EmitCompatibility(m: string, textId: string, delta: string)
      modifies this`firstTextFamily, this`fallbackFamily, this`families, this`assistantActivity, this`sent
      ensures TextsNow() == EmitCompat(old(TextsNow()), m, textId, delta)
    {
      var key := PartKey(m, textId);
      if textId == "" {
        if m !in fallbackFamily {
          fallbackFamily := fallbackFamily[m := if m in firstTextFamily then firstTextFamily[m] else Compatibility];
        }
        if fallbackFamily[m] != Compatibility {
          return;
        }
        SendDelta(m, Compatibility, key, Text, delta);
        return;
      }
      if m in fallbackFamily {
        if fallbackFamily[m] != Compatibility {
          return;
        }
        SendDelta(m, Compatibility, key, Text, delta);
        return;
      }
      if key in families && families[key] != Compatibility {
        return;
      }
      ghost var before := families;
      families := families[key := Compatibility];
      assert key in before ==> families == before;
      SendDelta(m, Compatibility, key, Text, delta);
    }

    method GetPart(key: string, kind: Option<Kind>) returns (ok: bool)
      modifies this`parts
      ensures var r := Tracker.GetPart(old(TextsNow()), key, kind);
              ok == r.Some? && TextsNow() == if ok then r.value else old(TextsNow())
    {
      if key == "" {
        return false;
      }
      if key in parts {
        return kind.None? || parts[key].kind == kind.value;
      }
      if |parts| >= MAX_PARTS {
        return false;
      }
      parts := parts[key := Part("", if kind.Some? then kind.value else Text)];
      return true;
    }

    method EmitDelta(m: string, key: string, delta: string) returns (ok: bool)
      modifies this`firstTextFamily, this`families, this`parts, this`assistantActivity, this`sent
      ensures Said(TextsNow(), ok) == Tracker.EmitDelta(old(TextsNow()), m, key, delta)
    {
      if m in fallbackFamily && fallbackFamily[m] != MessagePart {
        return true;
      }
      if key in families && families[key] != MessagePart {
        return true;
      }
      ok := GetPart(key, None);
      if !ok {
        return;
      }
      var part := parts[key];
      families := families[key := MessagePart];
      parts := parts[key := part.(text := part.text + delta)];
      SendDelta(m, MessagePart, key, part.kind, delta);
    }

    method EmitFull(m: string, key: string, kind: Kind, text: string) returns (ok: bool)
      modifies this`firstTextFamily, this`families, this`parts, this`assistantActivity, this`sent
      ensures Said(TextsNow(), ok) == Tracker.EmitFull(old(TextsNow()), m, key, kind, text)
    {
      if m in fallbackFamily && fallbackFamily[m] != MessagePart {
        return true;
      }
      if key in families && families[key] != MessagePart {
        return true;
      }
      ok := GetPart(key, Some(kind));
      if !ok {
        return;
      }
      var part := parts[key];
      if text == part.text || text <= part.text {
        return;
      }
      if !(part.text <= text) {
        return false;
      }
      var delta := text[|part.text|..];
      assert part.text + delta == text;
      parts := parts[key := part.(text := text)];
      families := families[key := MessagePart];
      SendDelta(m, MessagePart, key, part.kind, delta);
    }

    method Emit(m: string, p: Pending) returns (ok: bool)
      modifies this`firstTextFamily, this`fallbackFamily, this`families, this`parts, this`assistantActivity, this`sent
      ensures Said(TextsNow(), ok) == Deliver(old(TextsNow()), m, p)
    {
      match p
      case PendingDelta(key, delta) => ok := EmitDelta(m, key, delta);
      case PendingFull(key, kind, text) => ok := EmitFull(m, key, kind, text);
      case PendingCompat(textId, delta) =>
        EmitCompatibility(m, textId, delta);
        ok := true;
    }

    // -------------------------------------------------------------------------
    // The queue

    method Enqueue(m: string, p: Pending) returns (ok: bool)
      modifies this`pending, this`pendingRecords, this`pendingBytes
      ensures ok == (m == "" || Fits(old(QueueNow()), p))
      ensures QueueNow() == if ok && m != "" then Tracker.Enqueue(old(QueueNow()), m, p) else old(QueueNow())
    {
      if m == "" {
        return true;
      }
      var size := Size(p);
      if pendingRecords >= MAX_PENDING || size > MAX_PENDING_BYTES || pendingBytes > MAX_PENDING_BYTES - size {
        return false;
      }
      pending := pending[m := (if m in pending then pending[m] else []) + [p]];
      pendingRecords := pendingRecords + 1;
      pendingBytes := pendingBytes + size;
      return true;
    }

    method ClearPending(m: string)
      modifies this`pending, this`pendingRecords, this`pendingBytes
      ensures QueueNow() == Tracker.ClearPending(old(QueueNow()), m)
    {
      var texts := if m in pending then pending[m] else [];
      var i := 0;
      while i < |texts|
        invariant 0 <= i <= |texts| && pending == old(pending)
        invariant pendingRecords == old(pendingRecords) - i && pendingBytes == old(pendingBytes) - Bytes(texts[..i])
      {
        assert texts[..i + 1][..i] == texts[..i];
        pendingRecords := pendingRecords - 1;
        pendingBytes := pendingBytes - Size(texts[i]);
        i := i + 1;
      }
      assert texts[..i] == texts;
      pending := pending - {m};
    }

    /** Sends what waits for the message, stopping at the first failure. */
    method FlushPending(m: string) returns (ok: bool)
      modifies this`firstTextFamily, this`fallbackFamily, this`families, this`parts, this`assistantActivity, this`sent
      ensures Said(TextsNow(), ok) == Flush(old(TextsNow()), m, Waiting(QueueNow(), m))
    {
      var texts := if m in pending then pending[m] else [];
      var i := 0;
      while i < |texts|
        invariant 0 <= i <= |texts|
        invariant Flush(old(TextsNow()), m, texts) == Flush(TextsNow(), m, texts[i..])
      {
        assert texts[i..][0] == texts[i] && texts[i..][1..] == texts[i + 1..];
        ok := Emit(m, texts[i]);
        if !ok {
          return;
        }
        i := i + 1;
      }
      ok := true;
    }

    // -------------------------------------------------------------------------
    // Text events

    /** The lookup all text handlers end in: a current assistant's text is sent, an unknown message's is queued. */
    method Route(m: string, p: Pending) returns (reply: Reply)
      requires m != ""
      modifies this`firstTextFamily, this`fallbackFamily, this`families, this`parts, this`assistantActivity, this`sent,
               this`pending, this`pendingRecords, this`pendingBytes
      ensures Did(Now(), reply) == Offer(old(Now()), m, p)
    {
      if m in messageRoles && m !in currentAssistants {
        return Next;
      }
      var ok;
      if m !in currentAssistants {
        ok := Enqueue(m, p);
      } else {
        ok := Emit(m, p);
      }
      return if ok then Next else Fail(ProtocolError);
    }

    method MessageDelta(onText: bool, m: string, part: string, delta: string) returns (reply: Reply)
      modifies this`firstTextFamily, this`fallbackFamily, this`families, this`parts, this`assistantActivity, this`sent,
               this`pending, this`pendingRecords, this`pendingBytes
      ensures Did(Now(), reply) == TextEvent(old(Now()), PartDelta(onText, m, part, delta))
    {
      if !onText || delta == "" {
        return Next;
      }
      if !ValidId(m) || !ValidId(part) {
        return Fail(ProtocolError);
      }
      reply := Route(m, PendingDelta(PartKey(m, part), delta));
    }

    method MessagePartUpdated(shown: Option<PartInfo>) returns (reply: Reply)
      modifies this`firstTextFamily, this`fallbackFamily, this`families, this`parts, this`assistantActivity, this`sent,
               this`pending, this`pendingRecords, this`pendingBytes
      ensures Did(Now(), reply) == TextEvent(old(Now()), PartUpdated(shown))
    {
      if shown.None? || shown.value.kind.None? {
        return Next;
      }
      var part := shown.value;
      if !ValidId(part.message) || !ValidId(part.id) {
        return Fail(ProtocolError);
      }
      if !part.spoken {
        return Next;
      }
      reply := Route(part.message, PendingFull(PartKey(part.message, part.id), part.kind.value, part.text));
    }

    method CompatibilityDelta(m: string, textId: string, delta: string) returns (reply: Reply)
      modifies this`firstTextFamily, this`fallbackFamily, this`families, this`parts, this`assistantActivity, this`sent,
               this`pending, this`pendingRecords, this`pendingBytes
      ensures Did(Now(), reply) == TextEvent(old(Now()), TextDelta(m, textId, delta))
    {
      if delta == "" || m == "" {
        return Next;
      }
      if !ValidId(m) || (textId != "" && !ValidId(textId)) {
        return Fail(ProtocolError);
      }
      reply := Route(m, PendingCompat(textId, delta));
    }

    // -------------------------------------------------------------------------
    // Announcements

    /** Registers the message; the first user message becomes the prompt. */
    method Register(info: Info)
      requires info.role.Some?
      modifies this`messageRoles, this`messageParents, this`promptMessageId, this`promptSeen, this`currentAssistants,
               this`assistantActivity
      ensures NamesNow() == Tracker.Register(old(NamesNow()), info)
      ensures assistantActivity == (old(assistantActivity) || Answers(old(NamesNow()), info))
    {
      messageRoles := messageRoles[info.id := info.role.value];
      messageParents := messageParents[info.id := info.parent];
      if info.role.value == User {
        if promptMessageId == "" {
          promptMessageId := info.id;
        }
        if info.id == promptMessageId {
          promptSeen := true;
        }
      }
      if info.role.value == Assistant && promptMessageId != "" && info.parent == promptMessageId {
        currentAssistants := currentAssistants + {info.id};
        assistantActivity := true;
      }
    }

    method FlushAndClearPending(m: string) returns (reply: Reply)
      modifies this`firstTextFamily, this`fallbackFamily, this`families, this`parts, this`assistantActivity, this`sent,
               this`pending, this`pendingRecords, this`pendingBytes
      ensures Did(Now(), reply) == FlushAndClear(old(Now()), m)
    {
      ghost var t := Now();
      ghost var s := Flush(t.texts, m, Waiting(t.queue, m));
      var ok := FlushPending(m);
      assert s == Said(TextsNow(), ok);
      if !ok {
        assert Now() == t.(texts := s.x);
        return Fail(ProtocolError);
      }
      ClearPending(m);
      assert Now() == t.(texts := s.x, queue := Tracker.ClearPending(t.queue, m));
      return if idleObserved && assistantFinal then Over else Next;
    }

    /** Judges and flushes a message that is a current assistant. */
    method CurrentUpdated(info: Info) returns (reply: Reply)
      modifies this`assistantFinal, this`firstTextFamily, this`fallbackFamily, this`families, this`parts,
               this`assistantActivity, this`sent, this`pending, this`pendingRecords, this`pendingBytes
      ensures Did(Now(), reply) == AnnounceCurrent(old(Now()), info)
    {
      if info.error.Some? {
        return Fail(info.error.value);
      }
      if info.finish.BadFinish? {
        return Fail(ProtocolError);
      }
      if info.finish.FinalFinish? {
        assistantFinal := true;
      }
      reply := FlushAndClearPending(info.id);
    }

    method AdmitMessage(info: Info) returns (reply: Reply)
      modifies this`assistantFinal, this`firstTextFamily, this`fallbackFamily, this`families, this`parts,
               this`assistantActivity, this`sent, this`pending, this`pendingRecords, this`pendingBytes
      ensures Did(Now(), reply) == Admit(old(Now()), info)
    {
      if info.id in currentAssistants {
        reply := CurrentUpdated(info);
      } else {
        ClearPending(info.id);
        reply := if idleObserved && assistantFinal then Over else Next;
      }
    }

    /** The checks an announcement has to pass before anything is changed. */
    method Refuses(info: Info) returns (refused: bool)
      ensures refused == Refused(NamesNow(), info)
    {
      if !ValidId(info.id) || (info.parent != "" && !ValidId(info.parent)) {
        return true;
      }
      if info.role.None? {
        return false;
      }
      if |messageRoles| >= MAX_MESSAGES && info.id !in messageRoles {
        return true;
      }
      return info.id in messageRoles
             && (messageRoles[info.id] != info.role.value || ParentOf(NamesNow(), info.id) != info.parent);
    }

    method MessageUpdated(info: Info) returns (reply: Reply)
      modifies this
      ensures Did(Now(), reply) == Announce(old(Now()), info)
    {
      var refused := Refuses(info);
      if refused {
        return Fail(ProtocolError);
      }
      if info.role.None? {
        return Next;
      }
      Register(info);
      assert Now() == Registered(old(Now()), info);
      reply := AdmitMessage(info);
    }

    // -------------------------------------------------------------------------
    // One event

    /** The session an event names, unless it names two or an invalid one. */
    static method ConsistentSessionId(ids: seq<string>) returns (id: Option<string>)
      ensures id.Some? <==> SessionsAgree(ids)
      ensures id.Some? ==> id.value == SessionOf(ids)
    {
      var found := "";
      var i := 0;
      while i < |ids|
        invariant 0 <= i <= |ids|
        invariant SessionOf(ids) == if found != "" then found else SessionOf(ids[i..])
        invariant forall j | 0 <= j < i && ids[j] != "" :: |ids[j]| <= MAX_IDENTITY && NUL !in ids[j] && ids[j] == found
      {
        assert ids[i..][0] == ids[i] && ids[i..][1..] == ids[i + 1..];
        if ids[i] != "" {
          if |ids[i]| > MAX_IDENTITY || NUL in ids[i] {
            return None;
          }
          if found != "" && found != ids[i] {
            return None;
          }
          found := ids[i];
        }
        i := i + 1;
      }
      return Some(found);
    }

    /** Status, idle and error events, and the traces of tools. */
    method Signalled(body: Body) returns (reply: Reply)
      modifies this`sent, this`idleObserved, this`assistantActivity
      ensures Did(Now(), reply) == Signal(old(Now()), body)
    {
      match body
      case Status(state) =>
        if state.None? {
          return Fail(ProtocolError);
        }
        sent := sent + [ProviderState(state.value)];
        if state.value == "idle" && assistantActivity {
          idleObserved := true;
        }
        return if idleObserved && assistantFinal then Over else Next;
      case Idle =>
        if assistantActivity {
          idleObserved := true;
        }
        return if idleObserved && assistantFinal then Over else Next;
      case SessionError(code) =>
        if !promptSeen && !assistantActivity {
          return Next;
        }
        return Fail(code);
      case Other(tool, m) =>
        if tool && m in currentAssistants {
          assistantActivity := true;
        }
        return Next;
      case _ => return Next;
    }

    method Handle(body: Body) returns (reply: Reply)
      modifies this
      ensures Did(Now(), reply) == Dispatch(old(Now()), body)
    {
      match body
      case MessageUpdated(info) =>
        if info.None? {
          return Next;
        }
        reply := MessageUpdated(info.value);
      case PartDelta(onText, m, part, delta) => reply := MessageDelta(onText, m, part, delta);
      case PartUpdated(shown) => reply := MessagePartUpdated(shown);
      case TextDelta(m, textId, delta) => reply := CompatibilityDelta(m, textId, delta);
      case _ => reply := Signalled(body);
    }

    /** One record of the stream; `dispatched` tells whether the prompt has been handed over by now. */
    method Consume(dispatched: bool, r: Record) returns (reply: Reply)
      requires Valid()
      modifies this
      ensures Did(Now(), reply) == Tracker.Consume(old(Now()), dispatched, r)
      ensures !reply.Fail? ==> Valid()
    {
      ghost var before := Now();
      ConsumeKeepsInv(before, dispatched, r);
      if !armed && dispatched {
        armed := true;
      }
      if r.Garbled? || r.id == "" || |r.id| > MAX_IDENTITY {
        return Fail(ProtocolError);
      }
      var session := ConsistentSessionId(r.sessions);
      if session.None? {
        return Fail(ProtocolError);
      }
      if session.value != externalSessionId || !armed || r.id in seenIds {
        return Next;
      }
      if |seenIds| >= MAX_EVENTS {
        return Fail(ProtocolError);
      }
      seenIds := seenIds + {r.id};
      reply := Handle(r.body);
    }

    /** The events of a stream up to the one that ends the turn. */
    method ConsumeStream(inputs: seq<Input>) returns (reply: Reply)
      requires Valid()
      modifies this
      ensures Did(Now(), reply) == ConsumeAll(old(Now()), inputs)
    {
      var i := 0;
      while i < |inputs|
        invariant 0 <= i <= |inputs| && Valid()
        invariant ConsumeAll(old(Now()), inputs) == ConsumeAll(Now(), inputs[i..])
      {
        assert inputs[i..][0] == inputs[i] && inputs[i..][1..] == inputs[i + 1..];
        reply := Consume(inputs[i].dispatched, inputs[i].r);
        if !reply.Next? {
          return;
        }
        i := i + 1;
      }
      return Next;
    }
  }
}

/** The conversation store over append-only session logs
    (cmd/vertex-runtime/sessionstore.go).

    The session service is a map from session id to event log; every call consults a
    fault oracle and may fail before or after taking effect. */
module SessionStore {
  import opened Texts

  // ---- Messages and events ----

  // The roles and authors with a meaning on both sides, and any other.
  datatype Role = User | Assistant | OtherRole(name: string)

  datatype Author = UserAuthor | ModelAuthor | OtherAuthor(name: string)

  // A part without text (an image, a tool call) is None.
  datatype Message = Message(role: Role, content: string, parts: seq<Option<string>>)

  datatype SessionEvent = SessionEvent(author: Author, invocation: nat, parts: seq<string>)

  function RoleForAuthor(author: Author): Option<Role> {
    match author
    case UserAuthor => Some(User)
    case ModelAuthor => Some(Assistant)
    case OtherAuthor(_) => None
  }

  function AuthorForRole(role: Role): Option<Author> {
    match role
    case User => Some(UserAuthor)
    case Assistant => Some(ModelAuthor)
    case OtherRole(_) => None
  }

  function Joined(parts: seq<string>): string {
    if parts == [] then "" else parts[0] + Joined(parts[1..])
  }

  function PartTexts(parts: seq<Option<string>>): seq<string> {
    if parts == [] then []
    else (if parts[0].Some? then [parts[0].value] else []) + PartTexts(parts[1..])
  }

  lemma JoinedCons(built: string, head: string, rest: seq<string>)
    ensures built + Joined([head] + rest) == built + head + Joined(rest)
  {}

  // Parts win over content, unless they hold no text at all.
  function TextOf(msg: Message): string {
    var joined := Joined(PartTexts(msg.parts));
    if joined != "" then joined else msg.content
  }

  lemma JoinedOne(text: string)
    ensures Joined([text]) == text
  {
    assert [text][1..] == [] && text + "" == text;
  }

  lemma PartsStep(parts: seq<Option<string>>)
    requires parts != []
    ensures Joined(PartTexts(parts))
            == (if parts[0].Some? then parts[0].value else "") + Joined(PartTexts(parts[1..]))
  {
    var rest := PartTexts(parts[1..]);
    if parts[0].Some? {
      assert ([parts[0].value] + rest)[1..] == rest;
    } else {
      assert [] + rest == rest && "" + Joined(rest) == Joined(rest);
    }
  }

  lemma {:induction false} JoinedParts(parts: seq<Option<string>>, i: nat)
    requires i < |parts| && parts[i].Some? && parts[i].value != ""
    ensures Joined(PartTexts(parts)) != ""
  {
    PartsStep(parts);
    if i > 0 {
      JoinedParts(parts[1..], i - 1);
    }
  }

  lemma {:induction false} JoinedNone(parts: seq<Option<string>>)
    requires forall i :: 0 <= i < |parts| ==> parts[i].None? || parts[i].value == ""
    ensures Joined(PartTexts(parts)) == ""
  {
    if parts != [] {
      PartsStep(parts);
      JoinedNone(parts[1..]);
    }
  }

  lemma {:induction false} JoinedConcat(p: seq<string>, q: seq<string>)
    ensures Joined(p + q) == Joined(p) + Joined(q)
  {
    if p == [] {
      assert p + q == q;
    } else {
      assert (p + q)[1..] == p[1..] + q;
      JoinedConcat(p[1..], q);
    }
  }

  lemma {:induction false} PartTextsConcat(p: seq<Option<string>>, q: seq<Option<string>>)
    ensures PartTexts(p + q) == PartTexts(p) + PartTexts(q)
  {
    if p == [] {
      assert p + q == q;
    } else {
      assert (p + q)[1..] == p[1..] + q;
      PartTextsConcat(p[1..], q);
      var head := if p[0].Some? then [p[0].value] else [];
      assert head + (PartTexts(p[1..]) + PartTexts(q)) == head + PartTexts(p[1..]) + PartTexts(q);
    }
  }

  // Parts that hold text decide it alone, whatever the content and the role; a single
  // part's text is itself; several parts' texts follow each other; and parts without
  // any text leave the content.
  lemma PartsDecide(msg: Message, other: Message)
    ensures (exists i :: 0 <= i < |msg.parts| && msg.parts[i].Some? && msg.parts[i].value != "")
            ==> TextOf(msg) != "" && (other.parts == msg.parts ==> TextOf(other) == TextOf(msg))
    ensures (forall i :: 0 <= i < |msg.parts| ==> msg.parts[i].None? || msg.parts[i].value == "")
            ==> TextOf(msg) == msg.content
  {
    hide Joined, PartTexts;
    if i :| 0 <= i < |msg.parts| && msg.parts[i].Some? && msg.parts[i].value != "" {
      JoinedParts(msg.parts, i);
    } else {
      JoinedNone(msg.parts);
    }
  }

  lemma PartsConcat(role: Role, p: seq<Option<string>>, q: seq<Option<string>>)
    ensures TextOf(Message(role, "", p + q)) == TextOf(Message(role, "", p)) + TextOf(Message(role, "", q))
  {
    PartTextsConcat(p, q);
    JoinedConcat(PartTexts(p), PartTexts(q));
    hide Joined, PartTexts;
  }

  lemma OnePart(role: Role, content: string, text: string)
    requires text != ""
    ensures TextOf(Message(role, content, [Some(text)])) == text
  {
    var parts := [Some(text)];
    PartsStep(parts);
    assert parts[1..] == [] && text + "" == text;
  }

  method MessageText(msg: Message) returns (text: string)
    ensures text == TextOf(msg)
    ensures (exists i :: 0 <= i < |msg.parts| && msg.parts[i].Some? && msg.parts[i].value != "")
            ==> text != "" && text == TextOf(Message(msg.role, "", msg.parts))
    ensures (forall i :: 0 <= i < |msg.parts| ==> msg.parts[i].None? || msg.parts[i].value == "")
            ==> text == msg.content
  {
    PartsDecide(msg, Message(msg.role, "", msg.parts));
    if |msg.parts| > 0 {
      var built := "";
      var i := 0;
      while i < |msg.parts|
        invariant 0 <= i <= |msg.parts|
        invariant built + Joined(PartTexts(msg.parts[i..])) == Joined(PartTexts(msg.parts))
      {
        assert msg.parts[i..][0] == msg.parts[i] && msg.parts[i..][1..] == msg.parts[i + 1..];
        ghost var rest := PartTexts(msg.parts[i + 1..]);
        if msg.parts[i].Some? {
          JoinedCons(built, msg.parts[i].value, rest);
          built := built + msg.parts[i].value;
        } else {
          assert [] + rest == rest;
        }
        i := i + 1;
      }
      assert built + "" == built;
      if |built| > 0 {
        return built;
      }
    }
    text := msg.content;
  }

  function EventOf(msg: Message, invocation: nat): Option<SessionEvent> {
    if AuthorForRole(msg.role).None? || TextOf(msg) == "" then None
    else Some(SessionEvent(AuthorForRole(msg.role).value, invocation, [TextOf(msg)]))
  }

  method EventFromMessage(msg: Message, invocation: nat) returns (event: Option<SessionEvent>)
    ensures event == EventOf(msg, invocation)
  {
    var author := AuthorForRole(msg.role);
    if author.None? {
      return None;
    }
    var text := MessageText(msg);
    if text == "" {
      return None;
    }
    event := Some(SessionEvent(author.value, invocation, [text]));
  }

  function MessageOf(event: SessionEvent): Option<Message> {
    if RoleForAuthor(event.author).None? || Joined(event.parts) == "" then None
    else Some(Message(RoleForAuthor(event.author).value, Joined(event.parts), []))
  }

  method MessageFromEvent(event: SessionEvent) returns (msg: Option<Message>)
    ensures msg == MessageOf(event)
  {
    var role := RoleForAuthor(event.author);
    if role.None? {
      return None;
    }
    var text := "";
    var i := 0;
    while i < |event.parts|
      invariant 0 <= i <= |event.parts|
      invariant text + Joined(event.parts[i..]) == Joined(event.parts)
    {
      assert event.parts[i..][0] == event.parts[i] && event.parts[i..][1..] == event.parts[i + 1..];
      assert text + (event.parts[i] + Joined(event.parts[i + 1..]))
             == text + event.parts[i] + Joined(event.parts[i + 1..]);
      text := text + event.parts[i];
      i := i + 1;
    }
    assert text + "" == text;
    if |text| == 0 {
      return None;
    }
    msg := Some(Message(role.value, text, []));
  }

  // A user's or the assistant's message becomes an event exactly when a part holds text
  // or the content is some; the event is of this invocation, by that author, and holds
  // the text as its one part.
  lemma EventExactly(msg: Message, invocation: nat)
    ensures EventOf(msg, invocation).Some?
            <==> && (msg.role == User || msg.role == Assistant)
                 && (|| msg.content != ""
                     || exists i :: 0 <= i < |msg.parts| && msg.parts[i].Some? && msg.parts[i].value != "")
    ensures EventOf(msg, invocation).Some?
            ==> EventOf(msg, invocation).value
                == SessionEvent(if msg.role.User? then UserAuthor else ModelAuthor, invocation, [TextOf(msg)])
  {
    PartsDecide(msg, msg);
    hide TextOf;
  }

  // An event read back is a message of the role its author stands for; the texts of its
  // parts follow each other; and one without text or with another author is none.
  lemma EventText(author: Author, invocation: nat, p: seq<string>, q: seq<string>, role: Role)
    requires (author == UserAuthor && role == User) || (author == ModelAuthor && role == Assistant)
    ensures var whole, first, second := SessionEvent(author, invocation, p + q), SessionEvent(author, invocation, p),
                                        SessionEvent(author, invocation, q);
            && (MessageOf(whole).Some? <==> MessageOf(first).Some? || MessageOf(second).Some?)
            && (MessageOf(whole).Some?
                ==> MessageOf(whole).value
                    == Message(role, (if MessageOf(first).Some? then MessageOf(first).value.content else "")
                                     + (if MessageOf(second).Some? then MessageOf(second).value.content else ""), []))
    ensures |p| == 1 ==> MessageOf(SessionEvent(author, invocation, p))
                         == if p[0] == "" then None else Some(Message(role, p[0], []))
  {
    JoinedConcat(p, q);
    assert Joined(p) == "" ==> Joined(p) + Joined(q) == Joined(q);
    assert Joined(q) == "" ==> Joined(p) + Joined(q) == Joined(p);
    if |p| == 1 {
      JoinedOne(p[0]);
      assert p == [p[0]];
    }
    hide Joined;
  }

  // What is left of a message once it has been through a session: its role and text.
  predicate Representable(msg: Message) {
    !msg.role.OtherRole? && TextOf(msg) != ""
  }

  function Stored(msg: Message): Message {
    Message(msg.role, TextOf(msg), [])
  }

  // A message becomes an event exactly when it is a user's or the assistant's and has
  // text; it comes back with that role and text; and a message that came out of a
  // session goes through one unchanged.
  lemma TranslationRoundTrip(msg: Message, event: SessionEvent, invocation: nat)
    ensures EventOf(msg, invocation).Some? <==> Representable(msg)
    ensures Representable(msg) ==> MessageOf(EventOf(msg, invocation).value) == Some(Stored(msg))
    ensures Representable(msg)
            ==> EventOf(msg, invocation).value.author == if msg.role.User? then UserAuthor else ModelAuthor
    ensures MessageOf(event).Some?
            ==> var back := MessageOf(event).value;
                && Representable(back) && Stored(back) == back
                && MessageOf(EventOf(back, invocation).value) == MessageOf(event)
  {
    assert Joined([TextOf(msg)]) == TextOf(msg) by {
      assert [TextOf(msg)][1..] == [];
      assert TextOf(msg) + "" == TextOf(msg);
    }
    if MessageOf(event).Some? {
      var back := MessageOf(event).value;
      assert TextOf(back) == back.content;
      assert [back.content][1..] == [];
      assert back.content + "" == back.content;
    }
  }

  // ---- The session service ----

  datatype Outcome = Fine | FailEarly | FailLate

  // A listing that fails may have yielded some events already. Just before a create, or
  // while it is waited for, the session may appear: another writer's create came first.
  datatype Fate = Fate(outcome: Outcome, yielded: nat, appears: bool)

  datatype ApiError = NotFound | AlreadyExists | Unavailable

  type Log = seq<SessionEvent>

  datatype Service = Service(sessions: map<string, Log>, calls: nat, fate: nat -> Fate)

  datatype Listing = Listing(yielded: Log, end: Option<ApiError>)

  function Now(s: Service): Outcome {
    s.fate(s.calls).outcome
  }

  function Called(s: Service): Service {
    s.(calls := s.calls + 1)
  }

  function LogOf(s: Service, id: string): Log {
    if id in s.sessions then s.sessions[id] else []
  }

  function Min(a: nat, b: nat): nat {
    if a < b then a else b
  }

  function Listed(s: Service, id: string): Listing {
    if Now(s).Fine? then Listing(LogOf(s, id), if id in s.sessions then None else Some(NotFound))
    else Listing(LogOf(s, id)[..Min(s.fate(s.calls).yielded, |LogOf(s, id)|)], Some(Unavailable))
  }

  function Gotten(s: Service, id: string): Option<ApiError> {
    if !Now(s).Fine? then Some(Unavailable) else if id in s.sessions then None else Some(NotFound)
  }

  function Overtaken(s: Service, id: string): Service {
    Called(s).(sessions := if s.fate(s.calls).appears && id !in s.sessions then s.sessions[id := []] else s.sessions)
  }

  // Asking for a session, which waiting then brings up.
  function Asked(s: Service, id: string): (Service, Option<ApiError>) {
    var t := Overtaken(s, id);
    if Now(s).FailEarly? then (t, Some(Unavailable))
    else if id in t.sessions then (t, Some(AlreadyExists))
    else if Now(s).FailLate? then (t.(sessions := t.sessions[id := []]), Some(Unavailable))
    else (t, None)
  }

  function Waited(s: Service, id: string): (Service, Option<ApiError>) {
    var t := Overtaken(s, id);
    if Now(s).FailEarly? then (t, Some(Unavailable))
    else if id in t.sessions then (t, Some(AlreadyExists))
    else (t.(sessions := t.sessions[id := []]), if Now(s).FailLate? then Some(Unavailable) else None)
  }

  function EventAppended(s: Service, id: string, event: SessionEvent): (Service, Option<ApiError>) {
    if Now(s).FailEarly? then (Called(s), Some(Unavailable))
    else if id !in s.sessions then (Called(s), Some(NotFound))
    else (Called(s).(sessions := s.sessions[id := s.sessions[id] + [event]]),
        if Now(s).FailLate? then Some(Unavailable) else None)
  }

  /** The service the store calls, its logs updated in place. */
  class SessionService {
    var sessions: map<string, Log>
    var calls: nat
    const fate: nat -> Fate

    ghost function View(): Service
      reads this
    {
      Service(sessions, calls, fate)
    }

    constructor (fate: nat -> Fate)
      ensures View() == Service(map[], 0, fate)
    {
      sessions, calls, this.fate := map[], 0, fate;
    }

    method ListEvents(id: string) returns (listing: Listing)
      modifies this
      ensures listing == Listed(old(View()), id) && View() == Called(old(View()))
    {
      var f := fate(calls);
      calls := calls + 1;
      var log := if id in sessions then sessions[id] else [];
      if f.outcome.Fine? {
        return Listing(log, if id in sessions then None else Some(NotFound));
      }
      listing := Listing(log[..Min(f.yielded, |log|)], Some(Unavailable));
    }

    method GetSession(id: string) returns (err: Option<ApiError>)
      modifies this
      ensures err == Gotten(old(View()), id) && View() == Called(old(View()))
    {
      var outcome := fate(calls).outcome;
      calls := calls + 1;
      err := if !outcome.Fine? then Some(Unavailable) else if id in sessions then None else Some(NotFound);
    }

    // The call is made, perhaps after another writer's create.
    method Arrive(id: string) returns (outcome: Outcome)
      modifies this
      ensures View() == Overtaken(old(View()), id) && outcome == Now(old(View()))
    {
      var f := fate(calls);
      calls := calls + 1;
      if f.appears && id !in sessions {
        sessions := sessions[id := []];
      }
      outcome := f.outcome;
    }

    method CreateSession(id: string) returns (err: Option<ApiError>)
      modifies this
      ensures (View(), err) == Asked(old(View()), id)
    {
      var outcome := Arrive(id);
      if outcome.FailEarly? {
        return Some(Unavailable);
      }
      if id in sessions {
        return Some(AlreadyExists);
      }
      if outcome.FailLate? {
        sessions := sessions[id := []];
        return Some(Unavailable);
      }
      err := None;
    }

    method Wait(id: string) returns (err: Option<ApiError>)
      modifies this
      ensures (View(), err) == Waited(old(View()), id)
    {
      var outcome := Arrive(id);
      if outcome.FailEarly? {
        return Some(Unavailable);
      }
      if id in sessions {
        return Some(AlreadyExists);
      }
      sessions := sessions[id := []];
      err := if outcome.FailLate? then Some(Unavailable) else None;
    }

    method AppendEvent(id: string, event: SessionEvent) returns (err: Option<ApiError>)
      modifies this
      ensures (View(), err) == EventAppended(old(View()), id, event)
    {
      var outcome := fate(calls).outcome;
      calls := calls + 1;
      if outcome.FailEarly? {
        return Some(Unavailable);
      }
      if id !in sessions {
        return Some(NotFound);
      }
      sessions := sessions[id := sessions[id] + [event]];
      err := if outcome.FailLate? then Some(Unavailable) else None;
    }
  }

  // ---- The store's operations ----

  datatype StoreError = Failed(cause: ApiError) | ErrNotFound

  // A log as the store reads it: what it cannot represent is skipped.
  function Replayed(log: Log): seq<Message> {
    if log == [] then []
    else (if MessageOf(log[0]).Some? then [MessageOf(log[0]).value] else []) + Replayed(log[1..])
  }

  function ViewOf(s: Service, id: string): seq<Message> {
    Replayed(LogOf(s, id))
  }

  function Loaded(s: Service, id: string): Result<seq<Message>, StoreError> {
    var listing := Listed(s, id);
    if listing.end.None? then Ok(Replayed(listing.yielded))
    else if listing.end == Some(NotFound) then Ok([])
    else Err(Failed(listing.end.value))
  }

  // What has been replayed so far and what is left make up the whole.
  ghost predicate Replaying(done: seq<Message>, log: Log, i: nat) {
    i <= |log| && done + Replayed(log[i..]) == Replayed(log)
  }

  lemma ReplayNext(done: seq<Message>, log: Log, i: nat)
    requires i < |log| && Replaying(done, log, i)
    ensures Replaying(done + if MessageOf(log[i]).Some? then [MessageOf(log[i]).value] else [], log, i + 1)
  {}

  lemma ReplayEnds(done: seq<Message>, log: Log)
    ensures Replaying([], log, 0)
    ensures Replaying(done, log, |log|) ==> done == Replayed(log)
  {
    assert log[0..] == log;
    assert log[|log|..] == [] && done + [] == done;
  }

  method Load(client: SessionService, id: string) returns (r: Result<seq<Message>, StoreError>)
    modifies client
    ensures r == Loaded(old(client.View()), id) && client.View() == Called(old(client.View()))
  {
    hide Replaying, Replayed, MessageOf;
    var listing := client.ListEvents(id);
    var messages: seq<Message> := [];
    ReplayEnds(messages, listing.yielded);
    var i := 0;
    while i < |listing.yielded|
      invariant 0 <= i <= |listing.yielded|
      invariant Replaying(messages, listing.yielded, i)
      invariant client.View() == Called(old(client.View()))
    {
      ReplayNext(messages, listing.yielded, i);
      var msg := MessageFromEvent(listing.yielded[i]);
      assert messages + [] == messages;
      if msg.Some? {
        messages := messages + [msg.value];
      }
      i := i + 1;
    }
    ReplayEnds(messages, listing.yielded);
    if listing.end.None? {
      return Ok(messages);
    }
    if listing.end == Some(NotFound) {
      return Ok([]);
    }
    r := Err(Failed(listing.end.value));
  }

  // Losing the race to create is as good as creating.
  function Ensured(s: Service, id: string): (Service, Option<StoreError>) {
    if Gotten(s, id).None? then (Called(s), None)
    else if Gotten(s, id) != Some(NotFound) then (Called(s), Some(Failed(Gotten(s, id).value)))
    else
      var (t, asked) := Asked(Called(s), id);
      if asked == Some(AlreadyExists) then (t, None)
      else if asked.Some? then (t, Some(Failed(asked.value)))
      else
        var (u, waited) := Waited(t, id);
        if waited.None? || waited == Some(AlreadyExists) then (u, None) else (u, Some(Failed(waited.value)))
  }

  method EnsureSession(client: SessionService, id: string) returns (err: Option<StoreError>)
    modifies client
    ensures (client.View(), err) == Ensured(old(client.View()), id)
  {
    var got := client.GetSession(id);
    if got.None? {
      return None;
    }
    if got != Some(NotFound) {
      return Some(Failed(got.value));
    }
    var asked := client.CreateSession(id);
    if asked.Some? {
      if asked == Some(AlreadyExists) {
        return None;
      }
      return Some(Failed(asked.value));
    }
    var waited := client.Wait(id);
    if waited.Some? {
      if waited == Some(AlreadyExists) {
        return None;
      }
      return Some(Failed(waited.value));
    }
    err := None;
  }

  function BatchWritten(s: Service, id: string, messages: seq<Message>, invocation: nat): (Service, Option<StoreError>)
    decreases |messages|
  {
    if messages == [] then (s, None)
    else if EventOf(messages[0], invocation).None? then BatchWritten(s, id, messages[1..], invocation)
    else
      var (t, err) := EventAppended(s, id, EventOf(messages[0], invocation).value);
      if err.Some? then (t, Some(Failed(err.value))) else BatchWritten(t, id, messages[1..], invocation)
  }

  function MessagesAppended(s: Service, id: string, messages: seq<Message>, invocation: nat)
    : (Service, Option<StoreError>)
  {
    if messages == [] then (s, None)
    else
      var (t, err) := Ensured(s, id);
      if err.Some? then (t, err) else BatchWritten(t, id, messages, invocation)
  }

  // The clock the invocation id is taken from is a parameter.
  method AppendMessages(client: SessionService, id: string, messages: seq<Message>, clock: nat)
    returns (err: Option<StoreError>)
    modifies client
    ensures (client.View(), err) == MessagesAppended(old(client.View()), id, messages, clock)
  {
    if |messages| == 0 {
      return None;
    }
    err := EnsureSession(client, id);
    if err.Some? {
      return;
    }
    ghost var whole := BatchWritten(client.View(), id, messages, clock);
    var i := 0;
    while i < |messages|
      invariant 0 <= i <= |messages|
      invariant BatchWritten(client.View(), id, messages[i..], clock) == whole
    {
      assert messages[i..][0] == messages[i] && messages[i..][1..] == messages[i + 1..];
      var event := EventFromMessage(messages[i], clock);
      i := i + 1;
      if event.None? {
        continue;
      }
      var failed := client.AppendEvent(id, event.value);
      if failed.Some? {
        return Some(Failed(failed.value));
      }
    }
    err := None;
  }

  datatype Conversation = Conversation(id: string, messages: seq<Message>)

  function Saved(s: Service, state: Option<Conversation>, invocation: nat): (Service, Option<StoreError>) {
    if state.None? then (s, None)
    else
      var existing := Loaded(s, state.value.id);
      if existing.Err? then (Called(s), Some(existing.error))
      else if |state.value.messages| <= |existing.value| then (Called(s), None)
      else MessagesAppended(Called(s), state.value.id, state.value.messages[|existing.value|..], invocation)
  }

  // Raw messages are skipped by the number of stored ones.
  method Save(client: SessionService, state: Option<Conversation>, clock: nat) returns (err: Option<StoreError>)
    modifies client
    ensures (client.View(), err) == Saved(old(client.View()), state, clock)
  {
    if state.None? {
      return None;
    }
    var existing := Load(client, state.value.id);
    if existing.Err? {
      return Some(existing.error);
    }
    if |state.value.messages| <= |existing.value| {
      return None;
    }
    err := AppendMessages(client, state.value.id, state.value.messages[|existing.value|..], clock);
  }

  function Forked(s: Service, source: string, target: string, invocation: nat): (Service, Option<StoreError>) {
    var messages := Loaded(s, source);
    if messages.Err? then (Called(s), Some(messages.error))
    else if messages.value == [] then (Called(s), Some(ErrNotFound))
    else MessagesAppended(Called(s), target, messages.value, invocation)
  }

  method Fork(client: SessionService, source: string, target: string, clock: nat) returns (err: Option<StoreError>)
    modifies client
    ensures (client.View(), err) == Forked(old(client.View()), source, target, clock)
  {
    var messages := Load(client, source);
    if messages.Err? {
      return Some(messages.error);
    }
    if |messages.value| == 0 {
      return Some(ErrNotFound);
    }
    err := AppendMessages(client, target, messages.value, clock);
  }
}

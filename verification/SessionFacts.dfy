/** What the conversation store promises: it refines a map from session id to a growing
    sequence of (role, text), loses nothing it can represent, and Save settles. */
module SessionFacts {
  import opened Texts
  import opened SessionStore

  // ---- Batches ----

  // What a batch leaves in a conversation: its representable messages, in order.
  function Visible(messages: seq<Message>): seq<Message> {
    if messages == [] then []
    else (if Representable(messages[0]) then [Stored(messages[0])] else []) + Visible(messages[1..])
  }

  function EventsOf(messages: seq<Message>, invocation: nat): Log {
    if messages == [] then []
    else
      (if EventOf(messages[0], invocation).Some? then [EventOf(messages[0], invocation).value] else [])
      + EventsOf(messages[1..], invocation)
  }

  lemma {:induction false} ReplayedConcat(p: Log, q: Log)
    ensures Replayed(p + q) == Replayed(p) + Replayed(q)
  {
    if p == [] {
      assert p + q == q;
    } else {
      assert (p + q)[0] == p[0] && (p + q)[1..] == p[1..] + q;
      ReplayedConcat(p[1..], q);
      var head := if MessageOf(p[0]).Some? then [MessageOf(p[0]).value] else [];
      assert Replayed(p + q) == head + Replayed(p[1..] + q) && Replayed(p) == head + Replayed(p[1..]);
      hide Replayed, MessageOf;
    }
  }

  lemma {:induction false} VisibleConcat(p: seq<Message>, q: seq<Message>)
    ensures Visible(p + q) == Visible(p) + Visible(q)
  {
    if p == [] {
      assert p + q == q;
    } else {
      assert (p + q)[0] == p[0] && (p + q)[1..] == p[1..] + q;
      VisibleConcat(p[1..], q);
      var head := if Representable(p[0]) then [Stored(p[0])] else [];
      assert Visible(p + q) == head + Visible(p[1..] + q) && Visible(p) == head + Visible(p[1..]);
      hide Visible, Representable, Stored;
    }
  }

  // Writing a batch and reading any part of it back gives that part of what is visible.
  lemma {:induction false} EventsReplay(messages: seq<Message>, invocation: nat, k: nat)
    requires k <= |EventsOf(messages, invocation)|
    ensures |EventsOf(messages, invocation)| == |Visible(messages)|
    ensures Replayed(EventsOf(messages, invocation)[..k]) == Visible(messages)[..k]
  {
    if messages != [] {
      var head := messages[0];
      TranslationRoundTrip(head, SessionEvent(UserAuthor, 0, []), invocation);
      var rest := EventsOf(messages[1..], invocation);
      if EventOf(head, invocation).None? {
        EventsReplay(messages[1..], invocation, k);
        assert EventsOf(messages, invocation) == rest;
        assert Visible(messages) == Visible(messages[1..]);
      } else if k == 0 {
        EventsReplay(messages[1..], invocation, 0);
        assert Visible(messages)[..0] == [];
      } else {
        EventsReplay(messages[1..], invocation, k - 1);
        var event := EventOf(head, invocation).value;
        assert EventsOf(messages, invocation)[..k] == [event] + rest[..k - 1];
        ReplayedConcat([event], rest[..k - 1]);
        assert Replayed([event]) == [Stored(head)] by {
          assert [event][1..] == [];
        }
        assert Visible(messages)[..k] == [Stored(head)] + Visible(messages[1..])[..k - 1];
      }
    }
  }

  // A view is made of messages that go through a session unchanged.
  lemma {:induction false} ViewIsVisible(log: Log)
    ensures Visible(Replayed(log)) == Replayed(log)
  {
    if log != [] {
      ViewIsVisible(log[1..]);
      if MessageOf(log[0]).Some? {
        var back := MessageOf(log[0]).value;
        TranslationRoundTrip(back, log[0], 0);
        assert ([back] + Replayed(log[1..]))[1..] == Replayed(log[1..]);
        assert Replayed(log) == [back] + Replayed(log[1..]);
      } else {
        assert Replayed(log) == Replayed(log[1..]);
      }
    }
  }

  // A batch written to an existing session adds a prefix of its events there, all of
  // them when it succeeds, and touches no other session.
  lemma {:induction false} BatchOutcome(s: Service, id: string, messages: seq<Message>, invocation: nat)
    returns (k: nat)
    requires id in s.sessions
    ensures var (t, err) := BatchWritten(s, id, messages, invocation);
            && k <= |EventsOf(messages, invocation)|
            && t.sessions == s.sessions[id := s.sessions[id] + EventsOf(messages, invocation)[..k]]
            && (err.None? ==> k == |EventsOf(messages, invocation)|)
    decreases |messages|
  {
    var events := EventsOf(messages, invocation);
    if messages == [] {
      assert s.sessions[id] + events[..0] == s.sessions[id];
      return 0;
    }
    var head := EventOf(messages[0], invocation);
    if head.None? {
      k := BatchOutcome(s, id, messages[1..], invocation);
      assert events == EventsOf(messages[1..], invocation);
      return;
    }
    var (t, err) := EventAppended(s, id, head.value);
    assert events[..1] == [head.value] && events[..0] == [];
    if err.Some? {
      assert s.sessions[id] + events[..0] == s.sessions[id];
      return if id in t.sessions && t.sessions[id] == s.sessions[id] then 0 else 1;
    }
    k := BatchOutcome(t, id, messages[1..], invocation);
    assert s.sessions[id] + [head.value] + EventsOf(messages[1..], invocation)[..k] == s.sessions[id] + events[..k + 1];
    k := k + 1;
  }

  // Either nothing happened to the session map, or the session is there, empty if it was missing.
  lemma EnsureOutcome(s: Service, id: string)
    ensures var (t, err) := Ensured(s, id);
            && t.sessions in {s.sessions, s.sessions[id := LogOf(s, id)]}
            && (err.None? ==> t.sessions == s.sessions[id := LogOf(s, id)])
  {}

  // The log after an append is the old one and a prefix of the batch's events, the
  // whole batch when it succeeds; other sessions are as they were.
  lemma AppendOutcome(s: Service, id: string, messages: seq<Message>, invocation: nat) returns (k: nat)
    ensures var (t, err) := MessagesAppended(s, id, messages, invocation);
            && k <= |EventsOf(messages, invocation)|
            && LogOf(t, id) == LogOf(s, id) + EventsOf(messages, invocation)[..k]
            && (err.None? ==> k == |EventsOf(messages, invocation)|)
            && (err.None? && messages != [] ==> id in t.sessions)
            && (forall other :: other != id ==> LogOf(t, other) == LogOf(s, other))
  {
    var none := EventsOf(messages, invocation)[..0];
    assert LogOf(s, id) + none == LogOf(s, id);
    if messages == [] {
      return 0;
    }
    EnsureOutcome(s, id);
    var (t, err) := Ensured(s, id);
    if err.Some? {
      return 0;
    }
    k := BatchOutcome(t, id, messages, invocation);
  }

  // The same, as the store reads it.
  lemma AppendView(s: Service, id: string, messages: seq<Message>, invocation: nat)
    ensures var (t, err) := MessagesAppended(s, id, messages, invocation);
            && ViewOf(s, id) <= ViewOf(t, id) <= ViewOf(s, id) + Visible(messages)
            && (err.None? ==> ViewOf(t, id) == ViewOf(s, id) + Visible(messages))
            && (forall other :: other != id ==> ViewOf(t, other) == ViewOf(s, other))
  {
    var k := AppendOutcome(s, id, messages, invocation);
    var events := EventsOf(messages, invocation);
    EventsReplay(messages, invocation, k);
    ReplayedConcat(LogOf(s, id), events[..k]);
    assert k == |Visible(messages)| ==> Visible(messages)[..k] == Visible(messages);
  }

  // ---- Operations as steps on views ----

  datatype Op =
    | LoadOp(id: string)
    | AppendOp(id: string, messages: seq<Message>)
    | SaveOp(state: Conversation)
    | ForkOp(source: string, target: string)

  function Step(s: Service, op: Op, clock: nat): (Service, Option<StoreError>) {
    match op
    case LoadOp(id) => (Called(s), if Loaded(s, id).Ok? then None else Some(Loaded(s, id).error))
    case AppendOp(id, messages) => MessagesAppended(s, id, messages, clock)
    case SaveOp(state) => Saved(s, Some(state), clock)
    case ForkOp(source, target) => Forked(s, source, target, clock)
  }

  type Views = string -> seq<Message>

  // What a save makes of a view: raw messages are skipped by the view's length.
  function SavedView(view: seq<Message>, messages: seq<Message>): seq<Message> {
    if |messages| <= |view| then view else view + Visible(messages[|view|..])
  }

  // The store, as a map from session id to a sequence of (role, text).
  function Intended(views: Views, op: Op): Views {
    match op
    case LoadOp(_) => views
    case AppendOp(id, messages) => x => if x == id then views(x) + Visible(messages) else views(x)
    case SaveOp(state) => x => if x == state.id then SavedView(views(x), state.messages) else views(x)
    case ForkOp(source, target) => x => if x == target then views(x) + views(source) else views(x)
  }

  function ViewsOf(s: Service): Views {
    id => ViewOf(s, id)
  }

  lemma LoadReads(s: Service, id: string)
    ensures Loaded(s, id).Ok? ==> Loaded(s, id).value == ViewOf(s, id)
    ensures Loaded(s, id).Ok? <==> Now(s).Fine?
    ensures Loaded(s, id).Err? ==> Loaded(s, id).error.Failed?
    ensures ViewsOf(Called(s))(id) == ViewsOf(s)(id)
  {}

  lemma SaveRefines(s: Service, state: Conversation, clock: nat, id: string)
    ensures var (t, err) := Saved(s, Some(state), clock);
            && ViewOf(s, id) <= ViewOf(t, id) <= Intended(ViewsOf(s), SaveOp(state))(id)
            && (err.None? ==> ViewOf(t, id) == Intended(ViewsOf(s), SaveOp(state))(id))
  {
    LoadReads(s, state.id);
    CallKeepsViews(s);
    hide MessagesAppended, Loaded, Visible, ViewOf, Called;
    var view := ViewOf(s, state.id);
    if Loaded(s, state.id).Ok? && |state.messages| > |view| {
      AppendView(Called(s), state.id, state.messages[|view|..], clock);
    }
  }

  lemma CallKeepsViews(s: Service)
    ensures forall x :: ViewOf(Called(s), x) == ViewOf(s, x)
  {}

  lemma ForkRefines(s: Service, source: string, target: string, clock: nat, id: string)
    ensures var (t, err) := Forked(s, source, target, clock);
            && ViewOf(s, id) <= ViewOf(t, id) <= Intended(ViewsOf(s), ForkOp(source, target))(id)
            && (err.None? ==> ViewOf(t, id) == Intended(ViewsOf(s), ForkOp(source, target))(id))
  {
    LoadReads(s, source);
    ViewIsVisible(LogOf(s, source));
    CallKeepsViews(s);
    assert Visible(ViewOf(s, source)) == ViewOf(s, source);
    hide MessagesAppended, Loaded, Visible, ViewOf, Called;
    AppendView(Called(s), target, ViewOf(s, source), clock);
  }

  // Every operation only ever extends conversations, never past what it was asked to
  // add, and adds exactly that when it succeeds; Load returns the view.
  lemma StepRefines(s: Service, op: Op, clock: nat, id: string)
    ensures var (t, err) := Step(s, op, clock);
            && ViewOf(s, id) <= ViewOf(t, id) <= Intended(ViewsOf(s), op)(id)
            && (err.None? ==> ViewOf(t, id) == Intended(ViewsOf(s), op)(id))
            && (op.LoadOp? && err.None? ==> Loaded(s, op.id) == Ok(ViewOf(s, op.id)))
  {
    match op
    case LoadOp(x) => LoadReads(s, x);
    case AppendOp(x, messages) =>
      AppendView(s, x, messages, clock);
      hide MessagesAppended, ViewOf, Visible;
    case SaveOp(state) => SaveRefines(s, state, clock, id);
    case ForkOp(source, target) => ForkRefines(s, source, target, clock, id);
  }

  // ---- Whole runs ----

  // Each operation stamps its batch with the moment it runs at.
  function RunOps(s: Service, ops: seq<Op>): (Service, bool)
    decreases |ops|
  {
    if ops == [] then (s, true)
    else
      var (t, err) := Step(s, ops[0], s.calls);
      var (u, ok) := RunOps(t, ops[1..]);
      (u, err.None? && ok)
  }

  function IntendedRun(views: Views, ops: seq<Op>): Views
    decreases |ops|
  {
    if ops == [] then views else IntendedRun(Intended(views, ops[0]), ops[1..])
  }

  ghost predicate SameViews(p: Views, q: Views) {
    forall id :: p(id) == q(id)
  }

  lemma {:induction false} IntendedRunRespects(p: Views, q: Views, ops: seq<Op>)
    requires SameViews(p, q)
    ensures SameViews(IntendedRun(p, ops), IntendedRun(q, ops))
    decreases |ops|
  {
    if ops != [] {
      assert SameViews(Intended(p, ops[0]), Intended(q, ops[0]));
      IntendedRunRespects(Intended(p, ops[0]), Intended(q, ops[0]), ops[1..]);
    }
  }

  // After any operations, failed ones included, every conversation is an extension of
  // what it was; after successful ones only, it is exactly what the simple map holds.
  lemma {:induction false} StoreRefinesMap(s: Service, ops: seq<Op>, id: string)
    ensures var (t, ok) := RunOps(s, ops);
            && ViewOf(s, id) <= ViewOf(t, id)
            && (ok ==> ViewOf(t, id) == IntendedRun(ViewsOf(s), ops)(id))
    decreases |ops|
  {
    if ops != [] {
      var (t, err) := Step(s, ops[0], s.calls);
      StepRefines(s, ops[0], s.calls, id);
      StoreRefinesMap(t, ops[1..], id);
      if err.None? {
        forall x
          ensures ViewsOf(t)(x) == Intended(ViewsOf(s), ops[0])(x)
        {
          StepRefines(s, ops[0], s.calls, x);
        }
        IntendedRunRespects(ViewsOf(t), Intended(ViewsOf(s), ops[0]), ops[1..]);
      }
    }
  }

  // Forking adds the source's whole view to the target and leaves the source's log
  // alone; it reports a missing conversation exactly when the listing worked and
  // nothing in it is representable, and then writes nothing.
  lemma ForkCopiesEverything(s: Service, source: string, target: string, clock: nat)
    ensures var (t, err) := Forked(s, source, target, clock);
            && (err.None? ==> ViewOf(s, source) != [] && ViewOf(t, target) == ViewOf(s, target) + ViewOf(s, source))
            && (source != target ==> LogOf(t, source) == LogOf(s, source))
            && (err == Some(ErrNotFound) <==> Now(s).Fine? && ViewOf(s, source) == [])
            && (err == Some(ErrNotFound) ==> t.sessions == s.sessions)
  {
    ForkRefines(s, source, target, clock, target);
    LoadReads(s, source);
    var k := AppendOutcome(Called(s), target, ViewOf(s, source), clock);
    AppendNeverMissing(Called(s), target, ViewOf(s, source), clock);
    hide MessagesAppended, Loaded, ViewOf, EventsOf;
  }

  lemma {:induction false} BatchNeverMissing(s: Service, id: string, messages: seq<Message>, invocation: nat)
    requires id in s.sessions
    ensures BatchWritten(s, id, messages, invocation).1 !in {Some(ErrNotFound), Some(Failed(NotFound)),
        Some(Failed(AlreadyExists))}
    decreases |messages|
  {
    if messages != [] {
      if EventOf(messages[0], invocation).None? {
        BatchNeverMissing(s, id, messages[1..], invocation);
      } else {
        var (t, err) := EventAppended(s, id, EventOf(messages[0], invocation).value);
        if err.None? {
          BatchNeverMissing(t, id, messages[1..], invocation);
        }
      }
    }
  }

  // An append never fails for want of the session, nor because it already exists.
  lemma AppendNeverMissing(s: Service, id: string, messages: seq<Message>, invocation: nat)
    ensures MessagesAppended(s, id, messages, invocation).1
            !in {Some(ErrNotFound), Some(Failed(NotFound)), Some(Failed(AlreadyExists))}
  {
    EnsureOutcome(s, id);
    if messages != [] && Ensured(s, id).1.None? {
      BatchNeverMissing(Ensured(s, id).0, id, messages, invocation);
    }
  }

  // ---- Without faults ----

  ghost predicate FaultFree(s: Service) {
    forall t: nat :: t >= s.calls ==> s.fate(t).outcome.Fine?
  }

  lemma {:induction false} FaultFreeBatch(s: Service, id: string, messages: seq<Message>, invocation: nat)
    requires FaultFree(s) && id in s.sessions
    ensures BatchWritten(s, id, messages, invocation).1.None?
    decreases |messages|
  {
    if messages != [] {
      if EventOf(messages[0], invocation).None? {
        FaultFreeBatch(s, id, messages[1..], invocation);
      } else {
        assert Now(s).Fine?;
        FaultFreeBatch(EventAppended(s, id, EventOf(messages[0], invocation).value).0, id, messages[1..], invocation);
      }
    }
  }

  lemma FaultFreeEnsure(s: Service, id: string)
    requires FaultFree(s)
    ensures var (t, err) := Ensured(s, id); err.None? && FaultFree(t) && id in t.sessions
  {}

  // With no fault, only forking a conversation with nothing in it fails.
  lemma FaultFreeSucceeds(s: Service, op: Op, clock: nat)
    requires FaultFree(s)
    ensures Step(s, op, clock).1.None? <==> !(op.ForkOp? && ViewOf(s, op.source) == [])
  {
    assert Now(s).Fine? && FaultFree(Called(s));
    var id := if op.LoadOp? || op.AppendOp? then op.id else if op.SaveOp? then op.state.id else op.source;
    LoadReads(s, id);
    if op.AppendOp? {
      FaultFreeAppend(s, op.id, op.messages, clock);
    } else if op.SaveOp? && |op.state.messages| > |ViewOf(s, op.state.id)| {
      FaultFreeAppend(Called(s), op.state.id, op.state.messages[|ViewOf(s, op.state.id)|..], clock);
    } else if op.ForkOp? {
      FaultFreeAppend(Called(s), op.target, ViewOf(s, op.source), clock);
    }
    hide MessagesAppended, Loaded, ViewOf;
  }

  lemma FaultFreeAppend(s: Service, id: string, messages: seq<Message>, clock: nat)
    requires FaultFree(s)
    ensures MessagesAppended(s, id, messages, clock).1.None?
  {
    FaultFreeEnsure(s, id);
    FaultFreeBatch(Ensured(s, id).0, id, messages, clock);
  }

  // ---- Save ----

  function SavedTimes(view: seq<Message>, messages: seq<Message>, k: nat): seq<Message>
    decreases k
  {
    if k == 0 then view else SavedTimes(SavedView(view, messages), messages, k - 1)
  }

  // The log is already a prefix of the state, with nothing unrepresentable in it.
  ghost predicate PrefixOf(view: seq<Message>, messages: seq<Message>) {
    |view| <= |messages| && forall i :: 0 <= i < |view| ==> Representable(messages[i]) && view[i] == Stored(messages[i])
  }

  ghost predicate AllRepresentable(messages: seq<Message>) {
    forall i :: 0 <= i < |messages| ==> Representable(messages[i])
  }

  ghost predicate NoneRepresentable(messages: seq<Message>) {
    forall i :: 0 <= i < |messages| ==> !Representable(messages[i])
  }

  lemma VisibleHead(messages: seq<Message>)
    requires messages != []
    ensures Visible(messages)
            == (if Representable(messages[0]) then [Stored(messages[0])] else []) + Visible(messages[1..])
    ensures AllRepresentable(messages) <==> Representable(messages[0]) && AllRepresentable(messages[1..])
    ensures NoneRepresentable(messages) <==> !Representable(messages[0]) && NoneRepresentable(messages[1..])
  {
    hide Representable, Stored;
    assert forall i :: 0 < i < |messages| ==> messages[i] == messages[1..][i - 1];
  }

  lemma {:induction false} VisibleShorter(messages: seq<Message>)
    ensures |Visible(messages)| <= |messages|
    ensures |Visible(messages)| == |messages| <==> AllRepresentable(messages)
    ensures Visible(messages) == [] <==> NoneRepresentable(messages)
  {
    if messages != [] {
      VisibleShorter(messages[1..]);
      VisibleHead(messages);
      hide Visible, AllRepresentable, NoneRepresentable, Representable, Stored;
    }
  }

  lemma {:induction false} VisibleElementwise(messages: seq<Message>)
    requires AllRepresentable(messages)
    ensures PrefixOf(Visible(messages), messages)
  {
    VisibleShorter(messages);
    if messages != [] {
      VisibleElementwise(messages[1..]);
      VisibleHead(messages);
      hide Visible, Representable, Stored;
      forall i | 0 <= i < |messages|
        ensures Visible(messages)[i] == Stored(messages[i])
      {
        if i > 0 {
          assert Visible(messages)[i] == Visible(messages[1..])[i - 1];
          assert messages[i] == messages[1..][i - 1];
        }
      }
    }
  }

  // A save keeps the view as a prefix and never grows it past the longer of the two.
  lemma SaveNeverOvershoots(view: seq<Message>, messages: seq<Message>)
    ensures view <= SavedView(view, messages)
    ensures |SavedView(view, messages)| <= if |messages| > |view| then |messages| else |view|
  {
    if |messages| > |view| {
      VisibleShorter(messages[|view|..]);
    }
  }

  lemma PrefixTransitive<T>(p: seq<T>, q: seq<T>, r: seq<T>)
    requires p <= q <= r
    ensures p <= r
  {}

  lemma {:induction false} SettledStays(view: seq<Message>, messages: seq<Message>, k: nat)
    requires SavedView(view, messages) == view
    ensures SavedTimes(view, messages, k) == view
  {
    if k > 0 {
      SettledStays(view, messages, k - 1);
    }
  }

  // Repeating the same save reaches a fixpoint within as many saves as the state is
  // longer than the view: each one before it leaves less to skip.
  lemma {:induction false} SaveSettles(view: seq<Message>, messages: seq<Message>, k: nat)
    requires k + |view| >= |messages|
    ensures var settled := SavedTimes(view, messages, k);
            && SavedView(settled, messages) == settled
            && view <= settled && |settled| <= if |messages| > |view| then |messages| else |view|
    decreases k
  {
    var next := SavedView(view, messages);
    SaveNeverOvershoots(view, messages);
    assert |messages| <= |view| ==> next == view;
    hide SavedView;
    if |next| == |view| {
      assert next == view;
      SettledStays(view, messages, k);
    } else {
      SaveSettles(next, messages, k - 1);
      PrefixTransitive(view, next, SavedTimes(next, messages, k - 1));
    }
  }

  // Successful saves of the same state move the view by exactly these steps.
  lemma {:induction false} SavesRefine(s: Service, state: Conversation, k: nat)
    requires RunOps(s, seq(k, _ => SaveOp(state))).1
    ensures ViewOf(RunOps(s, seq(k, _ => SaveOp(state))).0, state.id) == SavedTimes(ViewOf(s, state.id),
        state.messages, k)
    decreases k
  {
    var ops := seq(k, _ => SaveOp(state));
    if k > 0 {
      var (t, err) := Step(s, ops[0], s.calls);
      StepRefines(s, ops[0], s.calls, state.id);
      assert ops[1..] == seq(k - 1, _ => SaveOp(state));
      SavesRefine(t, state, k - 1);
    }
  }

  lemma PrefixMeansVisible(view: seq<Message>, messages: seq<Message>)
    requires |view| <= |messages|
    ensures PrefixOf(view, messages) <==> view == Visible(messages[..|view|])
  {
    var head := messages[..|view|];
    VisibleShorter(head);
    hide Visible, Representable, Stored;
    assert forall i :: 0 <= i < |view| ==> head[i] == messages[i];
    if AllRepresentable(head) {
      VisibleElementwise(head);
    }
  }

  // One save makes the conversation exactly the state's exactly when the log is
  // already such a prefix.
  lemma SaveExact(view: seq<Message>, messages: seq<Message>)
    ensures SavedView(view, messages) == Visible(messages) <==> PrefixOf(view, messages)
  {
    var n := |view|;
    VisibleShorter(messages);
    if n <= |messages| {
      PrefixMeansVisible(view, messages);
      assert messages == messages[..n] + messages[n..];
      VisibleConcat(messages[..n], messages[n..]);
      assert |messages| == n ==> messages[..n] == messages && messages[n..] == [];
      SameTail(view, Visible(messages[..n]), Visible(messages[n..]));
      hide Visible, Representable;
    }
  }

  lemma SameTail(a: seq<Message>, b: seq<Message>, tail: seq<Message>)
    ensures a + tail == b + tail <==> a == b
  {
    if a + tail == b + tail {
      assert a == (a + tail)[..|a + tail| - |tail|] && b == (b + tail)[..|b + tail| - |tail|];
    }
  }

  lemma TailUnrepresentable(messages: seq<Message>, n: nat)
    requires n <= |messages|
    ensures Visible(messages[n..]) == [] <==> forall i :: n <= i < |messages| ==> !Representable(messages[i])
  {
    var tail := messages[n..];
    VisibleShorter(tail);
    hide Visible, Representable;
    assert forall i :: n <= i < |messages| ==> messages[i] == tail[i - n];
    assert forall i :: 0 <= i < |tail| ==> tail[i] == messages[i + n];
  }

  // Saving again adds nothing exactly when no representable message is left past the
  // length the first save reached.
  lemma SecondSaveQuiet(view: seq<Message>, messages: seq<Message>)
    ensures var once := SavedView(view, messages);
            SavedView(once, messages) == once
            <==> forall i :: |once| <= i < |messages| ==> !Representable(messages[i])
  {
    var once := SavedView(view, messages);
    hide Visible, Representable;
    if |messages| > |once| {
      TailUnrepresentable(messages, |once|);
      var more := Visible(messages[|once|..]);
      assert more == [] ==> once + more == once;
      assert |once + more| == |once| + |more|;
    }
  }

  // With every message representable and the log a prefix of them, one save is enough.
  lemma SaveOnceIsEnough(view: seq<Message>, messages: seq<Message>)
    requires PrefixOf(view, messages) && AllRepresentable(messages)
    ensures var once := SavedView(view, messages);
            once == Visible(messages) && |once| == |messages| && SavedView(once, messages) == once
  {
    SaveExact(view, messages);
    VisibleShorter(messages);
    SecondSaveQuiet(view, messages);
  }

  // ---- The second save, on the service itself ----

  ghost predicate SameLogs(s: Service, t: Service) {
    forall id :: LogOf(t, id) == LogOf(s, id)
  }

  lemma {:induction false} NoEvents(messages: seq<Message>, invocation: nat)
    ensures EventsOf(messages, invocation) == [] <==> Visible(messages) == []
  {
    EventsReplay(messages, invocation, 0);
  }

  // A save leaves every log as it was whenever nothing representable is left to add,
  // faults or not; without faults it does so only then.
  lemma SaveLeavesLogs(s: Service, state: Conversation, clock: nat)
    ensures var view := ViewOf(s, state.id);
            var quiet := forall i :: |view| <= i < |state.messages| ==> !Representable(state.messages[i]);
            && (quiet ==> SameLogs(s, Saved(s, Some(state), clock).0))
            && (FaultFree(s) ==> (SameLogs(s, Saved(s, Some(state), clock).0) <==> quiet))
  {
    var view, n := ViewOf(s, state.id), |ViewOf(s, state.id)|;
    var t := Saved(s, Some(state), clock).0;
    LoadReads(s, state.id);
    assert SameLogs(s, Called(s));
    if |state.messages| > n {
      var tail := state.messages[n..];
      TailUnrepresentable(state.messages, n);
      NoEvents(tail, clock);
      var k := AppendOutcome(Called(s), state.id, tail, clock);
      if FaultFree(s) {
        FaultFreeAppend(Called(s), state.id, tail, clock);
      }
      AddsOrNot(LogOf(s, state.id), EventsOf(tail, clock), k);
      hide MessagesAppended, EventsOf, Visible, Representable, ViewOf, FaultFree;
    }
  }

  lemma AddsOrNot(log: Log, events: Log, k: nat)
    requires k <= |events|
    ensures events == [] ==> log + events[..k] == log
    ensures events != [] && k == |events| ==> log + events[..k] != log
  {
    assert |log + events[..k]| == |log| + k;
  }

  // So with every message representable and the log a prefix of the state, a second
  // save after a successful one leaves every log exactly as it was.
  lemma SecondSaveLeavesLogs(s: Service, state: Conversation, first: nat, second: nat)
    requires PrefixOf(ViewOf(s, state.id), state.messages)
    requires AllRepresentable(state.messages)
    ensures var (t, err) := Saved(s, Some(state), first);
            err.None? ==> ViewOf(t, state.id) == Visible(state.messages) && SameLogs(t, Saved(t, Some(state), second).0)
  {
    var (t, err) := Saved(s, Some(state), first);
    SaveOnceIsEnough(ViewOf(s, state.id), state.messages);
    SaveRefines(s, state, first, state.id);
    SaveLeavesLogs(t, state, second);
  }

  // A tool result in the middle is enough to write the last message twice.
  lemma SaveDuplicates(toolRole: string)
    ensures var a, x, b := Message(User, "a", []), Message(OtherRole(toolRole), "x", []), Message(User, "b", []);
            && SavedView([], [a, x, b]) == [a, b]
            && SavedView([a, b], [a, x, b]) == [a, b, b]
            && SavedView([a, b, b], [a, x, b]) == [a, b, b]
  {
    var a, x, b := Message(User, "a", []), Message(OtherRole(toolRole), "x", []), Message(User, "b", []);
    assert [a, x, b][0..] == [a, x, b] && [a, x, b][1..] == [x, b] && [x, b][1..] == [b] && [b][1..] == [];
    assert [a, x, b][2..] == [b];
    assert Visible([b]) == [b] && Visible([x, b]) == [b] && Visible([a, x, b]) == [a, b];
  }

  // Appending nothing makes no call and brings up no session; appending anything brings
  // the session up, even if no event comes of it.
  lemma AppendCreates(s: Service, id: string, messages: seq<Message>, clock: nat)
    ensures messages == [] ==> MessagesAppended(s, id, messages, clock) == (s, None)
    ensures messages != [] && MessagesAppended(s, id, messages, clock).1.None?
            ==> id in MessagesAppended(s, id, messages, clock).0.sessions
  {
    if messages != [] && Ensured(s, id).1.None? {
      BatchKeepsSession(Ensured(s, id).0, id, messages, clock);
    }
  }

  lemma {:induction false} BatchKeepsSession(s: Service, id: string, messages: seq<Message>, clock: nat)
    ensures id in s.sessions ==> id in BatchWritten(s, id, messages, clock).0.sessions
    decreases |messages|
  {
    hide EventOf;
    if messages != [] {
      var event := EventOf(messages[0], clock);
      BatchKeepsSession(if event.None? then s else EventAppended(s, id, event.value).0, id, messages[1..], clock);
    }
  }
}
